/** common/utils.py: the application constants, the upload validators and the
    small request and pricing helpers. */
module CommonUtils {
  import opened Basics
  import opened Text

  // ---------------------------------------------------------------- constants

  /** A response of an API endpoint: its HTTP status and message. */
  datatype Reply = Reply(status: nat, message: string)

  datatype Role = Admin | Vendor | Customer

  function RoleName(r: Role): (name: string)
    ensures name != [] && forall i :: 0 <= i < |name| ==> 'A' <= name[i] <= 'Z'
  {
    match r
    case Admin => "ADMIN"
    case Vendor => "VENDOR"
    case Customer => "CUSTOMER"
  }

  /** Membership in USER_ROLE_CHOICES: the stored value of a role field. */
  function RoleFromName(s: string): (r: Option<Role>)
    ensures r.Some? ==> RoleName(r.value) == s
  {
    if s == "ADMIN" then Some(Admin)
    else if s == "VENDOR" then Some(Vendor)
    else if s == "CUSTOMER" then Some(Customer)
    else None
  }

  lemma RoleNameRoundTrip(r: Role)
    ensures RoleFromName(RoleName(r)) == Some(r)
  {
  }

  datatype CategoryType = Books | Toys

  datatype OrderStatus = Pending | Paid | Shipped | Delivered | Cancelled

  function StatusName(s: OrderStatus): (name: string)
    ensures name != [] && forall i :: 0 <= i < |name| ==> 'A' <= name[i] <= 'Z'
  {
    match s
    case Pending => "PENDING"
    case Paid => "PAID"
    case Shipped => "SHIPPED"
    case Delivered => "DELIVERED"
    case Cancelled => "CANCELLED"
  }

  /** Membership in ORDER_STATUS_CHOICES (the keys of `dict(choices)`). */
  function StatusFromName(s: string): (r: Option<OrderStatus>)
    ensures r.Some? ==> StatusName(r.value) == s
    ensures r.None? ==> forall st: OrderStatus :: StatusName(st) != s
  {
    if s == "PENDING" then Some(Pending)
    else if s == "PAID" then Some(Paid)
    else if s == "SHIPPED" then Some(Shipped)
    else if s == "DELIVERED" then Some(Delivered)
    else if s == "CANCELLED" then Some(Cancelled)
    else None
  }

  lemma StatusNameRoundTrip(s: OrderStatus)
    ensures StatusFromName(StatusName(s)) == Some(s)
  {
  }

  // --------------------------------------------------------------- validators

  /** The outcome of a Django validator: it returns, or raises ValidationError. */
  datatype Verdict = Accept | Reject(message: string)

  const Megabyte: nat := 1024 * 1024

  /** validate_file_size */
  function ValidateFileSize(size: nat, maxSizeMb: nat): (v: Verdict)
    ensures v.Accept? <==> size <= maxSizeMb * Megabyte
  {
    if size > maxSizeMb * Megabyte then
      Reject("File size cannot exceed " + NatToString(maxSizeMb) + "MB.")
    else Accept
  }

  /** `os.path.splitext(p)[1]`: the extension is the text from the last '.' of
      the last path component, unless every character before that dot in the
      component is itself a dot (so ".bashrc" and "..." have no extension). */
  function SplitExt(p: string): (ext: string)
    ensures |ext| <= |p| && (ext == [] || (ext[0] == '.' && ext == p[|p| - |ext|..]))
    ensures '/' !in ext && (ext == [] || '.' !in ext[1..])
  {
    var sepIndex := RFind(p, '/');
    var dotIndex := RFind(p, '.');
    if dotIndex > sepIndex && exists j :: sepIndex + 1 <= j < dotIndex && p[j] != '.' then
      assert forall k :: dotIndex < k < |p| ==> p[k] != '/' && p[k] != '.';
      p[dotIndex..]
    else []
  }

  /** A name whose last component has a stem with some non-dot character and
      a final dotted suffix: the suffix, dot included, is the extension. */
  lemma SplitExtOfStemAndSuffix(dir: string, stem: string, suffix: string)
    requires '/' !in stem && '/' !in suffix && '.' !in suffix
    requires exists j :: 0 <= j < |stem| && stem[j] != '.'
    requires dir == [] || dir[|dir| - 1] == '/'
    ensures SplitExt(dir + stem + "." + suffix) == "." + suffix
  {
    var p := dir + stem + "." + suffix;
    var dot := |dir| + |stem|;
    assert p[dot] == '.';
    assert forall k :: dot < k < |p| ==> p[k] == suffix[k - dot - 1];
    assert RFind(p, '.') == dot;
    var sep := RFind(p, '/');
    assert forall k :: |dir| <= k < |p| ==> p[k] != '/' by {
      forall k | |dir| <= k < |p| ensures p[k] != '/' {
        if k < dot { assert p[k] == stem[k - |dir|]; }
        else if k > dot { assert p[k] == suffix[k - dot - 1]; }
      }
    }
    assert sep < |dir|;
    if dir != [] { assert p[|dir| - 1] == '/'; }
    assert sep == |dir| - 1;
    var j :| 0 <= j < |stem| && stem[j] != '.';
    assert p[|dir| + j] == stem[j];
    assert p[dot..] == "." + suffix;
  }

  /** A last component that starts with its only dot (".bashrc") has no extension. */
  lemma SplitExtOfHiddenName(dir: string, rest: string)
    requires '/' !in rest && '.' !in rest
    requires dir == [] || dir[|dir| - 1] == '/'
    ensures SplitExt(dir + "." + rest) == ""
  {
    var p := dir + "." + rest;
    var dot := |dir|;
    assert p[dot] == '.';
    assert forall k :: dot < k < |p| ==> p[k] == rest[k - dot - 1];
    assert RFind(p, '.') == dot;
    if dir != [] { assert p[|dir| - 1] == '/'; }
    assert RFind(p, '/') == dot - 1;
  }

  const ImageExtensions: seq<string> := [".jpg", ".jpeg", ".png", ".webp"]
  const AudioExtensions: seq<string> := [".mp3", ".wav", ".ogg", ".m4a"]

  /** validate_image_file: type first, then at most 5 MB. */
  function ValidateImageFile(name: string, size: nat): (v: Verdict)
    ensures v.Accept? <==> Lower(SplitExt(name)) in ImageExtensions && size <= 5 * Megabyte
    ensures Lower(SplitExt(name)) !in ImageExtensions ==>
              v == Reject("Only JPG, PNG, and WebP images are allowed.")
  {
    if Lower(SplitExt(name)) !in ImageExtensions then
      Reject("Only JPG, PNG, and WebP images are allowed.")
    else ValidateFileSize(size, 5)
  }

  /** validate_audio_file: type first, then at most 50 MB. */
  function ValidateAudioFile(name: string, size: nat): (v: Verdict)
    ensures v.Accept? <==> Lower(SplitExt(name)) in AudioExtensions && size <= 50 * Megabyte
    ensures Lower(SplitExt(name)) !in AudioExtensions ==>
              v == Reject("Only MP3, WAV, OGG, and M4A audio files are allowed.")
  {
    if Lower(SplitExt(name)) !in AudioExtensions then
      Reject("Only MP3, WAV, OGG, and M4A audio files are allowed.")
    else ValidateFileSize(size, 50)
  }

  /** An upload named like a hidden file (".mp3") has no extension and is refused. */
  lemma HiddenNameRefused(size: nat)
    ensures ValidateAudioFile(".mp3", size).Reject?
    ensures ValidateImageFile(".png", size).Reject?
  {
    SplitExtOfHiddenName("", "mp3");
    assert "" + "." + "mp3" == ".mp3";
    SplitExtOfHiddenName("", "png");
    assert "" + "." + "png" == ".png";
  }

  // ------------------------------------------------------------------ helpers

  /** calculate_discounted_price on exact decimals: a percentage strictly between
      0 and 100 is taken off, anything else leaves the price as it is. */
  function CalculateDiscountedPrice(price: real, pct: real): (r: real)
    ensures 0.0 < pct < 100.0 ==> r == price * (100.0 - pct) / 100.0
    ensures !(0.0 < pct < 100.0) ==> r == price
  {
    if pct != 0.0 && 0.0 < pct < 100.0 then price - price * (pct / 100.0) else price
  }

  /** A real discount makes a positive price strictly smaller and keeps it positive. */
  lemma DiscountedPriceBetween(price: real, pct: real)
    requires price > 0.0 && 0.0 < pct < 100.0
    ensures 0.0 < CalculateDiscountedPrice(price, pct) < price
  {
    var f := pct / 100.0;
    assert 0.0 < f < 1.0;
    assert price * f < price * 1.0;
    assert 0.0 < price * f;
  }

  /** get_client_ip: the first comma-separated field of X-Forwarded-For (not
      stripped) when that header is present and non-empty, else REMOTE_ADDR. */
  function GetClientIp(forwardedFor: Option<string>, remoteAddr: Option<string>): (ip: Option<string>)
    ensures forwardedFor.Some? && forwardedFor.value != "" ==>
              ip.Some? && ',' !in ip.value && ip.value <= forwardedFor.value
              && (|ip.value| < |forwardedFor.value| ==> forwardedFor.value[|ip.value|] == ',')
    ensures !(forwardedFor.Some? && forwardedFor.value != "") ==> ip == remoteAddr
  {
    if forwardedFor.Some? && forwardedFor.value != "" then Some(Split(forwardedFor.value, ',')[0])
    else remoteAddr
  }

  /** The extension kept by generate_unique_filename: `filename.split('.')[-1]`. */
  function FilenameExtension(filename: string): (ext: string)
    ensures '.' !in ext
    ensures |ext| <= |filename| && ext == filename[|filename| - |ext|..]
    ensures '.' !in filename ==> ext == filename
    ensures '.' in filename ==> |ext| < |filename| && filename[|filename| - |ext| - 1] == '.'
  {
    var parts := Split(filename, '.');
    SplitJoin(filename, '.');
    LastPartIsSuffix(parts, '.');
    parts[|parts| - 1]
  }

  lemma {:induction false} LastPartIsSuffix(parts: seq<string>, sep: char)
    requires |parts| >= 1
    ensures var s := Join(parts, sep); var l := parts[|parts| - 1];
            |l| <= |s| && l == s[|s| - |l|..]
            && (|parts| > 1 ==> |l| < |s| && s[|s| - |l| - 1] == sep)
    decreases |parts|
  {
    if |parts| > 1 {
      LastPartIsSuffix(parts[1..], sep);
      var rest := Join(parts[1..], sep);
      assert Join(parts, sep) == parts[0] + [sep] + rest;
      assert parts[|parts| - 1] == parts[1..][|parts[1..]| - 1];
    }
  }

  /** generate_unique_filename: the random `uuid4()` text is supplied by the caller. */
  function GenerateUniqueFilename(uuid: string, filename: string): (name: string)
    ensures name == uuid + "." + FilenameExtension(filename)
    ensures '.' !in uuid ==> Split(name, '.')[|Split(name, '.')| - 1] == FilenameExtension(filename)
  {
    var ext := FilenameExtension(filename);
    assert '.' !in uuid ==> Split(uuid + "." + ext, '.') == [uuid, ext] by {
      if '.' !in uuid {
        JoinSplit([uuid, ext], '.');
        assert Join([uuid, ext], '.') == uuid + "." + ext;
      }
    }
    uuid + "." + ext
  }
}
