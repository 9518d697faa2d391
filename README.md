# A verified model of a marketplace backend

The system is a Django REST backend for an online shop in which approved
vendors sell books and toys to customers, with a small music player beside
it. This project models in Dafny the logic of five of its apps and proves
properties of that model:

- **common**: upload validators, discounted price, client address, soft delete
  (`SoftDelete`), and the five permission classes (`Permissions`).
- **catalog**: product pricing (current price, sale, discount percentage, stock,
  age range), category paths, the Book/Toy category guard, review rating
  aggregates. The tables are the class `Catalog.ProductCatalog`.
- **users**: roles and approval (`Users`), addresses with a single default per
  user and type, registration and vendor application (`UserSerializers`), and
  the approval endpoint and user statistics (`UserViews`). The tables are the
  class `Users.Accounts`.
- **orders**: cart totals, order numbers, cancellation, order items and vendor
  earnings (`OrderModels`, with the class `OrderModels.Store`), checkout
  (`OrderSerializers`), the cart, merge, order, cancel and status endpoints
  (`OrderViews`), the item-delete signal (`OrderSignals`), and the admin
  actions (`OrderAdmin`).
- **music**: tracks with a single featured track, play counts, playlists and
  their aggregates, the settings singleton (`Music`, with the class
  `Music.MusicLibrary`), the upload, settings and reorder validators
  (`MusicSerializers`), streaming with byte ranges, play logging, featuring,
  reordering, deletion and playlist membership (`MusicViews`), and the admin
  (`MusicAdmin`).

Each source file is one Dafny module. A database table is a field of one of the
four classes: a `map` from primary key to row where rows are found by key, and
a `seq` in insertion order where the code filters or iterates. An endpoint or
admin action is a method that takes those objects and names them in its
`modifies` clause. Each such method is tied in its `ensures` to a function of
the old state, and the lemmas state what the code promises about that function.
Money is kept in cents as an `int`. Tax (8 %) and the platform fee (5 %) are
exact `real` products. The clock, `uuid4` and the session key that
`session.create()` makes are parameters. A file's bytes are a parameter, and
`None` stands for a missing file.

Several behaviours of the code are stated as lemmas. None of them is a defect
that needs correcting:

- A billing address can never be the shipping address, because the two
  validators demand different address types (`OrderSerializers.AddressTypesExclusive`).
- The duplicate-id branch of validate_track_ids is unreachable
  (`MusicSerializers.DuplicateBranchUnreachable`).
- The wrong-type message of the track serializer never reaches a client
  (`MusicSerializers.TrackFileCheckRedundant`).
- "bytes=-N" is read as the first N + 1 bytes, not as a suffix range
  (`MusicViews.ParseRangeSuffixReadAsPrefix`).
- stream_track logs a play before it reads the Range header, so a 416 or 500
  still counts a play (`MusicViews.StreamTrack`).
- The settings update creates the settings row even when validation then
  fails (`MusicViews.UpdateSettings`).
- A settings row added in the admin under a key other than 1 makes
  get_settings create a second row (`MusicAdmin.SecondSettingsRow`).
- After a playlist loses a track, the next track added ties on sort order
  (`MusicViews.RemoveThenAddTies`).
- A featured track stays featured after its soft deletion (`MusicViews.DeleteTrack`).
- The admin's mark_paid accepts any status and stamps paid_at again on a paid
  order (`OrderAdmin.MarkPaidLaxerThanEndpoint`).
- Deleting an item of a cancelled order restores its stock a second time
  (`OrderSignals.CancelThenDeleteRestoresTwice`).

## Model

| member | source | states |
|---|---|---|
| `CommonUtils.RoleFromName` | app/backend/apps/common/utils.py:76-85 | a stored role value denotes a role only when it is one of the three choice keys, and then names it |
| `CommonUtils.RoleName` | app/backend/apps/common/utils.py:76-85 | each role's stored value is a non-empty upper-case word (ADMIN, VENDOR, CUSTOMER) |
| `CommonUtils.RoleNameRoundTrip` | app/backend/apps/common/utils.py:76-85 | every role's stored value reads back as that role |
| `CommonUtils.StatusFromName` | app/backend/apps/common/utils.py:96-109 | a status string is accepted iff it is one of the five ORDER_STATUS_CHOICES keys, and then names that status |
| `CommonUtils.StatusName` | app/backend/apps/common/utils.py:96-109 | each order status's stored value is a non-empty upper-case word (PENDING … CANCELLED) |
| `CommonUtils.StatusNameRoundTrip` | app/backend/apps/common/utils.py:96-109 | every order status's stored value reads back as that status |
| `CommonUtils.ValidateFileSize` | app/backend/apps/common/utils.py:17-20 | a file passes iff its size is at most max_size_mb × 1024 × 1024 bytes, with the "File size cannot exceed N MB." message otherwise |
| `CommonUtils.SplitExt` | app/backend/apps/common/utils.py:26 | the extension is empty or a suffix of the name that starts with its one '.', and holds no '/' |
| `CommonUtils.SplitExtOfStemAndSuffix` | app/backend/apps/common/utils.py:26 | a last path component "stem.suffix" whose stem has a non-dot character has extension ".suffix" |
| `CommonUtils.SplitExtOfHiddenName` | app/backend/apps/common/utils.py:26 | a last component that starts with its only dot has no extension |
| `CommonUtils.ValidateImageFile` | app/backend/apps/common/utils.py:23-31 | an image passes iff its lower-cased extension is .jpg, .jpeg, .png or .webp and it is at most 5 MB; the type is checked first |
| `CommonUtils.ValidateAudioFile` | app/backend/apps/common/utils.py:34-43 | an audio file passes iff its lower-cased extension is .mp3, .wav, .ogg or .m4a and it is at most 50 MB; the type is checked first |
| `CommonUtils.HiddenNameRefused` | app/backend/apps/common/utils.py:26-29 | files named ".mp3" or ".png" have no extension and are refused whatever their size |
| `CommonUtils.CalculateDiscountedPrice` | app/backend/apps/common/utils.py:46-51 | a percentage strictly between 0 and 100 scales the price by (100 − p)/100; any other percentage leaves it unchanged |
| `CommonUtils.DiscountedPriceBetween` | app/backend/apps/common/utils.py:46-51 | a real discount keeps a positive price positive and makes it strictly smaller |
| `CommonUtils.GetClientIp` | app/backend/apps/common/utils.py:54-61 | a non-empty X-Forwarded-For gives its first comma-separated field, otherwise REMOTE_ADDR |
| `CommonUtils.FilenameExtension` | app/backend/apps/common/utils.py:12 | the kept extension is the dot-free suffix after the last '.', or the whole name when there is no '.' |
| `CommonUtils.LastPartIsSuffix` | app/backend/apps/common/utils.py:12 | joining parts and splitting again, the last part is the suffix after the last separator |
| `CommonUtils.GenerateUniqueFilename` | app/backend/apps/common/utils.py:10-14 | the new name is the uuid, '.', and the old extension, and splitting it on '.' gives back that extension last |
| `SoftDelete.MarkDeleted` | app/backend/apps/common/models.py:22-26 | a deleted row is flagged and stamped with the clock reading |
| `SoftDelete.MarkRestored` | app/backend/apps/common/models.py:32-36 | a restored row has the flags of a fresh row |
| `SoftDelete.DeleteThenRestore` | app/backend/apps/common/models.py:22-36 | restoring a deleted row gives it the flags of a fresh row |
| `SoftDelete.Table.constructor` | app/backend/apps/common/models.py:14-20 | a new table holds no rows |
| `SoftDelete.Table.Delete` | app/backend/apps/common/models.py:22-26 | delete keeps the row, flags and stamps it, and touches no other row |
| `SoftDelete.Table.HardDelete` | app/backend/apps/common/models.py:28-30 | hard_delete removes exactly that row |
| `SoftDelete.Table.Restore` | app/backend/apps/common/models.py:32-36 | restore clears exactly that row's flags |
| `SoftDelete.DeleteRestoreRoundTrip` | app/backend/apps/common/models.py:22-36 | soft delete then restore of a live row gives back the table as it was |
| `Permissions.Requester.IsAuthenticated` | app/backend/apps/common/permissions.py:31 | holds exactly for a signed-in user, never for AnonymousUser |
| `Permissions.IsSafeMethod` | app/backend/apps/common/permissions.py:14 | the safe methods are GET, HEAD and OPTIONS; POST, PUT, PATCH and DELETE are never safe |
| `Permissions.IsSameUser` | app/backend/apps/common/permissions.py:18 | an anonymous requester, or a row with a null user, is never the same user |
| `Permissions.OwnerObjectPermission` | app/backend/apps/common/permissions.py:11-18 | IsOwnerOrReadOnly: safe methods always pass; a write passes iff the row's user is the requester |
| `Permissions.VendorPermission` | app/backend/apps/common/permissions.py:26-34 | IsVendorOrReadOnly view check: safe methods always pass; a write is granted exactly to a signed-in, approved VENDOR (both directions) |
| `Permissions.VendorObjectPermission` | app/backend/apps/common/permissions.py:36-46 | IsVendorOrReadOnly object check: safe methods always pass; a write is granted exactly when the object's vendor is the requester, an approved VENDOR (both directions) |
| `Permissions.AdminOrReadOnlyPermission` | app/backend/apps/common/permissions.py:54-58 | IsAdminOrReadOnly: safe methods always pass; a write is granted exactly to a signed-in ADMIN (both directions) |
| `Permissions.AdminOnlyPermission` | app/backend/apps/common/permissions.py:66-67 | IsAdminOnly: granted exactly to a signed-in ADMIN, whatever the method |
| `Permissions.CustomerPermission` | app/backend/apps/common/permissions.py:75-79 | IsCustomerOrReadOnly: safe methods always pass; a write is granted exactly to a signed-in CUSTOMER or ADMIN, never to a VENDOR (both directions) |
| `Permissions.ReadsAlwaysGranted` | app/backend/apps/common/permissions.py:14-15 | every "...OrReadOnly" class grants GET, HEAD and OPTIONS to anyone |
| `Permissions.AnonymousCannotWrite` | app/backend/apps/common/permissions.py:18-79 | every class refuses writes from an anonymous user, and IsAdminOnly refuses it everything |
| `Permissions.VendorObjectImpliesView` | app/backend/apps/common/permissions.py:26-46 | the vendor object check is never laxer than the vendor view check |
| `Permissions.VendorObjectWrite` | app/backend/apps/common/permissions.py:36-46 | a write on an object is allowed iff the view check passes and the object's vendor is the requester |
| `Permissions.AdminOnlyIsAdminWrite` | app/backend/apps/common/permissions.py:49-79 | IsAdminOnly grants exactly to authenticated ADMINs, for every method, and implies the other admin and customer checks |
| `Catalog.FullName` | app/backend/apps/catalog/models.py:45-50 | the path ends with the category's own name and is just that name for a root |
| `Catalog.FullNameStartsAtRoot` | app/backend/apps/catalog/models.py:45-50 | the path begins with the root's name and holds one " > " per level below the root |
| `Catalog.CurrentPrice` | app/backend/apps/catalog/models.py:126-129 | a set, non-zero sale price is charged, otherwise the list price (`Catalog.HasSalePrice` is that set-and-non-zero test) |
| `Catalog.CurrentPriceAgainstPrice` | app/backend/apps/catalog/models.py:126-134 | on sale iff the current price is below the list price; a sale price at or above the list price is still charged |
| `Catalog.IsOnSale` | app/backend/apps/catalog/models.py:131-134 | a product on sale has a sale price set and is charged strictly below its list price |
| `Catalog.RoundHalfEven` | app/backend/apps/catalog/models.py:140 | the rounded quotient is within half a unit of n / d (ties to even, as Decimal rounding does) |
| `Catalog.RoundHalfEvenBetween` | app/backend/apps/catalog/models.py:140 | rounding n / d stays within [lo, hi] whenever n / d does |
| `Catalog.DiscountPercentage` | app/backend/apps/catalog/models.py:136-141 | 0 off sale; on sale, (price − sale) / price × 100 rounded to two places; a division by zero exactly when on sale at price 0 |
| `Catalog.DiscountPercentageInRange` | app/backend/apps/catalog/models.py:131-141 | with a non-negative sale price there is no division by zero and the percentage lies in [0, 100] |
| `Catalog.AgeRangeDisplay` | app/backend/apps/catalog/models.py:148-155 | "min-max years", "min+ years" or "All ages", as the two optional bounds are set |
| `Catalog.AgeRangeDisplayStartsWithMin` | app/backend/apps/catalog/models.py:151-154 | the label starts with the minimum age's digits followed by a non-digit, so the minimum can be read back |
| `Catalog.IsInStock` | app/backend/apps/catalog/models.py:143-146 | in stock means at least one unit; the cart serializer's product check accepts only in-stock products |
| `Catalog.CategoryGuard` | app/backend/apps/catalog/models.py:173-177 | a book or toy passes iff its category has the matching type, with the source's ValueError message otherwise |
| `Catalog.RatingsOf` | app/backend/apps/catalog/models.py:266 | the ratings of a product's review rows, never more than the rows |
| `Catalog.Mean` | app/backend/apps/catalog/models.py:267 | the average is 0 when there are no reviews (`Avg or 0`) (also line 271 of the same file) |
| `Catalog.StoredRating` | app/backend/apps/catalog/models.py:107-110 | the value the DecimalField(3, 2) rating_avg holds: 0 without reviews, otherwise within half a hundredth of the exact average (also lines 271-273 of the same file) |
| `Catalog.SumBounds` | app/backend/apps/catalog/models.py:266-269 | a sum of ratings in [lo, hi] lies between lo × n and hi × n |
| `Catalog.MeanOfRatings` | app/backend/apps/catalog/models.py:240-242 | with ratings between 1 and 5 the exact average and the two-place value stored for it both lie between 1 and 5 (also lines 266-273 of the same file) |
| `Catalog.QuotientBetween` | app/backend/apps/catalog/models.py:267 | an average of values in [lo, hi] is in [lo, hi] |
| `Catalog.RatingsOfAppend` | app/backend/apps/catalog/models.py:266 | a new review row adds its rating to its own product's ratings only |
| `Catalog.ProductCatalog.constructor` | app/backend/apps/catalog/models.py:64-112 | an empty catalog |
| `Catalog.ProductCatalog.SaveTyped` | app/backend/apps/catalog/models.py:173-198 | the row is written iff the category guard passes; on the ValueError nothing changes |
| `Catalog.ProductCatalog.SaveNewReview` | app/backend/apps/catalog/models.py:247-273 | a second review by the same user is refused by unique_together and changes nothing; otherwise the review is appended, the count is that of all the product's reviews, and the average is their mean rounded half-even to two places |
| `Catalog.ProductCatalog.SaveExistingReview` | app/backend/apps/catalog/models.py:254-260 | re-saving a review replaces it and does not recompute the product's rating |
| `Catalog.NewReviewCounted` | app/backend/apps/catalog/models.py:259-272 | after a new review the product's count grows by exactly one and is at least 1 |
| `Users.FullName` | app/backend/apps/users/models.py:37-39 | the full name has no Python whitespace, ASCII or Unicode, at either end |
| `Users.FullNameOfBothNames` | app/backend/apps/users/models.py:37-39 | two names without outer blanks are joined by exactly one space |
| `Users.FullNameWithoutFirstName` | app/backend/apps/users/models.py:37-39 | with no first name the stray separator is stripped and the last name is left |
| `Users.IsAdmin` | app/backend/apps/users/models.py:41-43 | every superuser is an admin, and a non-superuser admin has role ADMIN |
| `Users.IsVendor` | app/backend/apps/users/models.py:45-47 | a vendor in this sense is approved and has role VENDOR, not CUSTOMER or ADMIN |
| `Users.IsCustomer` | app/backend/apps/users/models.py:49-51 | a customer is never a vendor, and is an admin only as a superuser |
| `Users.RolePropertiesDisjoint` | app/backend/apps/users/models.py:41-51 | an approved vendor is not a customer and is an admin only as a superuser; an unapproved vendor is neither vendor nor customer |
| `Users.SaveUser` | app/backend/apps/users/models.py:53-57 | saving an ADMIN forces is_vendor_approved; other roles keep their flag; no other field changes |
| `Users.SaveUserIdempotent` | app/backend/apps/users/models.py:53-57 | saving twice stores the same user as saving once |
| `Users.ClearDefaults` | app/backend/apps/users/models.py:143-148 | the bulk update clears is_default on the user's addresses of that type and changes nothing else |
| `Users.SaveDefaultIsOnlyDefault` | app/backend/apps/users/models.py:141-149 | after saving a default address it is the only default of its user and type |
| `Users.SaveNonDefaultTouchesNothingElse` | app/backend/apps/users/models.py:141-149 | saving a non-default address changes no other address |
| `Users.SaveKeepsOneDefault` | app/backend/apps/users/models.py:141-149 | Address.save keeps at most one default per user and type |
| `Users.Accounts.constructor` | app/backend/apps/users/models.py:9-149 | empty user, address and vendor profile tables |
| `Users.Accounts.SaveUserRow` | app/backend/apps/users/models.py:53-57 | the row becomes the saved user and the other tables are unchanged |
| `Users.Accounts.SaveAddress` | app/backend/apps/users/models.py:141-149 | the address table becomes the one after Address.save (`Users.AddressesAfterSave`: the user's other defaults of that type cleared when the new row is a default, then the row written), and the one-default invariant holds |
| `UserSerializers.ValidateRegistration` | app/backend/apps/users/serializers.py:36-39 | a registration passes iff the two passwords match, else "Passwords don't match." |
| `UserSerializers.NewUser` | app/backend/apps/users/serializers.py:41-47 | the new user keeps the submitted email, names and phone and gets the CUSTOMER role, unapproved, not a superuser |
| `UserSerializers.NewUserIgnoresPasswords` | app/backend/apps/users/serializers.py:42-44 | the passwords are popped before the row is built, so they do not affect it |
| `UserSerializers.RegistrationAsWritten` | app/backend/apps/users/serializers.py:41-47 | as written, a registration is refused iff the passwords differ, and otherwise raises TypeError; it never creates a user (Findings row 4) |
| `UserSerializers.RegistrationIntended` | app/backend/apps/users/serializers.py:36-47 | as intended, a registration is refused iff the passwords differ, and otherwise creates the CUSTOMER row NewUser builds (Findings row 4) |
| `UserSerializers.RegistrationNeverCreates` | app/backend/apps/users/serializers.py:41-47 | the two outcomes agree on every refused registration, and the passwords match exactly when the code raises where a row was intended (Findings row 4) |
| `UserSerializers.Register` | app/backend/apps/users/serializers.py:36-47 | the corrected registration (Findings row 4): a valid registration adds exactly the new user row; an invalid one changes nothing |
| `UserSerializers.UpdateProfile` | app/backend/apps/users/serializers.py:10-20 | a profile update changes the writable fields as sent and never the read-only role; approval changes only as User.save forces it for admins (`UserSerializers.Patched` gives each writable field: the sent value, else the stored one) |
| `UserSerializers.PatchCannotPromote` | app/backend/apps/users/serializers.py:20 | no patch can make a customer a vendor or approve it |
| `UserSerializers.NewVendorProfile` | app/backend/apps/users/serializers.py:100-103 | the profile belongs to the user, keeps the business fields and starts unapproved and unrejected |
| `UserSerializers.CreateVendorApplication` | app/backend/apps/users/serializers.py:93-104 | the user's role becomes VENDOR with the approval flag unchanged, and one vendor profile is inserted |
| `UserViews.ApplyForVendor` | app/backend/apps/users/views.py:68-81 | a user who already has a vendor profile gets 400 "You already have a vendor application." and nothing changes; otherwise the application is created (201) |
| `UserViews.Approved` | app/backend/apps/users/views.py:104-107 | approval stamps the date and the approving admin and clears the rejection reason, leaving the rest of the profile |
| `UserViews.Rejected` | app/backend/apps/users/views.py:114-117 | rejection clears the date and approver and stores the reason, leaving the rest of the profile |
| `UserViews.ApproveOrReject` | app/backend/apps/users/views.py:96-124 | a missing profile is 404; "approve" and "reject" set the user's flag (then User.save) and the profile as above; any other action is 400 with the source's message and changes nothing |
| `UserViews.ApprovalOutcome` | app/backend/apps/users/views.py:101-113 | approval always leaves the user approved; rejection leaves it unapproved unless the user is an ADMIN, whom User.save re-approves |
| `UserViews.Stats` | app/backend/apps/users/views.py:180-194 | total_users is the number of users, and an empty user table gives five zero counts |
| `UserViews.StatsAddUp` | app/backend/apps/users/views.py:180-194 | approved plus pending vendors equal all vendors, and customers plus vendors are at most all users |
| `OrderModels.TotalItems` | app/backend/apps/orders/models.py:37-42 | the item count is 0 for an empty cart and at least every line's quantity |
| `OrderModels.TotalItemsAppend` | app/backend/apps/orders/models.py:37-42 | the quantity sum splits over a concatenation of lines |
| `OrderModels.UnitPrice` | app/backend/apps/orders/models.py:88-91 | an on-sale line is priced strictly below the list price, and a line without a sale price at the list price |
| `OrderModels.LineTotal` | app/backend/apps/orders/models.py:93-96 | a line of quantity 0 costs 0, and with a non-negative unit price a line costs at least one unit |
| `OrderModels.SubtotalOf` | app/backend/apps/orders/models.py:44-50 | an empty cart's subtotal is 0; with no negative line total, the subtotal is non-negative and at least each line's total |
| `OrderModels.LineSavings` | app/backend/apps/orders/models.py:56-60 | what one line saves is never negative |
| `OrderModels.SavingsOf` | app/backend/apps/orders/models.py:52-61 | the cart's savings are never negative |
| `OrderModels.SubtotalPlusSavings` | app/backend/apps/orders/models.py:44-61 | subtotal plus savings equal the list-price total unless a line is charged a sale price at or above its list price, and are never below it (also lines 88-96 of the same file) |
| `OrderModels.Subtotal` | app/backend/apps/orders/models.py:44-50 | the loop sums every line's unit price × quantity |
| `OrderModels.TotalSavings` | app/backend/apps/orders/models.py:52-61 | the loop sums (price − current price) × quantity over the on-sale lines, and the result is never negative |
| `OrderModels.Snapshot` | app/backend/apps/orders/serializers.py:237-260 | the order's JSON address keeps the ten copied fields of the address |
| `OrderModels.SnapshotIgnoresBookkeeping` | app/backend/apps/orders/serializers.py:237-260 | the copy does not depend on the address's owner, type or default flag |
| `OrderModels.GenerateOrderNumber` | app/backend/apps/orders/models.py:158-161 | the number is "ORD-" and eight upper-case hex digits, the first eight of the uuid's hex |
| `OrderModels.SaveOrder` | app/backend/apps/orders/models.py:153-156 | a number is generated only when the order has none; an order with a number is saved unchanged |
| `OrderModels.SaveOrderIdempotent` | app/backend/apps/orders/models.py:153-156 | a second save never replaces the number the first one gave |
| `OrderModels.CanBeCancelled` | app/backend/apps/orders/models.py:163-166 | a SHIPPED, DELIVERED or CANCELLED order can never be cancelled |
| `OrderModels.CancelledOrder` | app/backend/apps/orders/models.py:178-180 | the status becomes CANCELLED, "\nCancelled: reason" is appended to the internal notes, and nothing else changes |
| `OrderModels.CancelOnlyOnce` | app/backend/apps/orders/models.py:163-171 | exactly PENDING and PAID orders can be cancelled, and a cancelled order cannot be cancelled again |
| `OrderModels.ItemsOf` | app/backend/apps/orders/models.py:174 | the order's items are exactly the item rows that point at it |
| `OrderModels.SaveOrderItem` | app/backend/apps/orders/models.py:216-229 | the snapshot is taken only when no SKU is stored, the unit price defaults to the current price only when unset, and the total is always unit price × quantity |
| `OrderModels.SaveOrderItemStable` | app/backend/apps/orders/models.py:216-229 | saving an item again changes nothing, even after the product was edited, once a SKU and a price are stored |
| `OrderModels.EstimatedDelivery` | app/backend/apps/orders/models.py:245-250 | "N days" when the bounds agree, else "min-max days" |
| `OrderModels.NoDashInNumber` | app/backend/apps/orders/models.py:250 | a number's digits hold no '-' |
| `OrderModels.EstimatedDeliveryDeterminesBounds` | app/backend/apps/orders/models.py:245-250 | two methods with the same label have the same minimum and maximum days |
| `OrderModels.SaveEarnings` | app/backend/apps/orders/models.py:319-322 | an unset net amount becomes gross − fee; a set one is kept; nothing else changes |
| `OrderModels.SaveEarningsIdempotent` | app/backend/apps/orders/models.py:319-322 | saving twice is saving once |
| `OrderModels.RestoreAll` | app/backend/apps/orders/models.py:174-176 | restoring inventory keeps the set of products |
| `OrderModels.RestoreAllInventory` | app/backend/apps/orders/models.py:174-176 | each product's inventory rises by the total quantity of its items, and nothing else about it changes |
| `OrderModels.RestoreAllInventoryAt` | app/backend/apps/orders/models.py:174-176 | the same, for one product |
| `OrderModels.RestoreInventory` | app/backend/apps/orders/models.py:174-176 | the loop leaves the product table as RestoreAll describes and the reviews untouched |
| `OrderModels.TablesValidSameKeys` | app/backend/apps/orders/models.py:14-229 | the table invariant depends only on which products exist |
| `OrderModels.Store.constructor` | app/backend/apps/orders/models.py:14-322 | empty order tables over a given catalog |
| `OrderModels.Store.Cancel` | app/backend/apps/orders/models.py:168-180 | a status other than PENDING or PAID is the ValueError and changes nothing; otherwise the order is cancelled and its items' inventory restored |
| `OrderSerializers.ValidateProductId` | app/backend/apps/orders/serializers.py:30-38 | a product id passes iff it names an active product with stock; "Product not found." or "Product is out of stock." otherwise |
| `OrderSerializers.ValidateQuantity` | app/backend/apps/orders/serializers.py:40-57 | a quantity below 1 is refused; with a non-zero product id of an active product it must not exceed the stock ("Only N items available in stock."); anything else passes |
| `OrderSerializers.ValidatedQuantityInStock` | app/backend/apps/orders/serializers.py:30-57 | when both validators pass on the same product, 1 ≤ quantity ≤ stock |
| `OrderSerializers.ValidateCheckout` | app/backend/apps/orders/serializers.py:148-187 | checkout input is valid iff both addresses are the user's own of the right type, the method is active, the payment choice is known and the notes, stripped of surrounding whitespace (Unicode spaces included, as str.strip removes them), fit 500 characters; each failure carries its field's message |
| `OrderSerializers.PaddedNotesAccepted` | app/backend/apps/orders/serializers.py:161-162 | 500 characters of notes plus a trailing blank are accepted exactly when the request without notes is, and are stored without the blank |
| `Text.StripTrailingBlank` | app/backend/apps/orders/serializers.py:161-162 | a string that neither starts nor ends with whitespace is what the strip of it plus a blank gives back |
| `OrderSerializers.AddressTypesExclusive` | app/backend/apps/orders/serializers.py:164-180 | the same address can never pass as both shipping and billing address |
| `OrderSerializers.UserCart` | app/backend/apps/orders/serializers.py:214-217 | the user's cart row if there is one, soft-deleted or not; none means no row has that user |
| `OrderSerializers.NewOrder` | app/backend/apps/orders/serializers.py:222-263 | the order is PENDING and numbered, with tax 8 % of the subtotal, total = subtotal + tax + shipping, no discount, both address copies and the notes stripped of surrounding Python whitespace (default "") |
| `OrderSerializers.NewItem` | app/backend/apps/orders/serializers.py:274-279 | one cart line becomes an item with its product and quantity at the current price, with the product's snapshot and vendor |
| `OrderSerializers.NewItems` | app/backend/apps/orders/serializers.py:266-279 | one item per cart line, in line order |
| `OrderSerializers.Reserve` | app/backend/apps/orders/serializers.py:266-283 | a reservation that succeeds keeps the set of products; one that fails names the first short line |
| `OrderSerializers.ReserveInventory` | app/backend/apps/orders/serializers.py:281-283 | a successful reservation lowers each product's stock by exactly the quantity ordered of it and changes nothing else |
| `OrderSerializers.ReserveInventoryAt` | app/backend/apps/orders/serializers.py:281-283 | the same, for one product |
| `OrderSerializers.ReserveSucceedsIffInStock` | app/backend/apps/orders/serializers.py:266-271 | with one line per product, reservation succeeds iff every line's quantity is within its product's stock |
| `OrderSerializers.NotOrderedNoQuantity` | app/backend/apps/orders/serializers.py:266-283 | a product on no line has no ordered quantity |
| `OrderSerializers.ShortPrefix` | app/backend/apps/orders/serializers.py:268-271 | the first short line ends the loop whatever follows it |
| `OrderSerializers.ItemQuantities` | app/backend/apps/orders/serializers.py:274-279 | the items carry exactly the lines' quantities per product |
| `OrderSerializers.ReserveThenRestore` | app/backend/apps/orders/serializers.py:281-283 | restoring a fresh order's items (the Order.cancel loop) gives back exactly the product table before checkout |
| `OrderSerializers.NewItemIgnoresInventory` | app/backend/apps/orders/serializers.py:274-279 | the item built for a line does not depend on the product's stock |
| `OrderSerializers.ReserveStep` | app/backend/apps/orders/serializers.py:266-283 | one pass over a line that fits lowers that product's stock and appends its item |
| `OrderSerializers.ReserveStepShort` | app/backend/apps/orders/serializers.py:268-271 | one pass over a line that does not fit ends the reservation at that line |
| `OrderSerializers.ReserveLines` | app/backend/apps/orders/serializers.py:266-283 | the loop either reserves everything, appending the lines' items, or stops at the first short line, as Reserve says |
| `OrderSerializers.CheckoutAllOrNothing` | app/backend/apps/orders/serializers.py:189-288 | a refused checkout leaves every table as it was, and "Cart is empty." comes exactly when the user has no cart or no item rows |
| `OrderSerializers.CheckoutOf` | app/backend/apps/orders/serializers.py:189-288 | a refusal writes no order and no order item; a success appends exactly one order, whose id is the next row |
| `OrderSerializers.CheckoutSucceedsIff` | app/backend/apps/orders/serializers.py:213-271 | with one line per product, an order is created iff the user has a non-empty cart and every line fits the stock |
| `OrderSerializers.CheckoutCreated` | app/backend/apps/orders/serializers.py:222-286 | a created order is appended with its totals, addresses and one item per line at the current price; each product's stock falls by what was ordered of it; the cart is emptied |
| `OrderSerializers.CheckoutKeepsValid` | app/backend/apps/orders/serializers.py:189-288 | checkout keeps the tables' invariant |
| `OrderSerializers.CheckoutSteps` | app/backend/apps/orders/serializers.py:189-288 | the steps of create produce exactly the outcome and tables CheckoutOf describes |
| `OrderSerializers.Checkout` | app/backend/apps/orders/serializers.py:189-288 | on the store, a validated checkout leaves the tables as CheckoutOf describes and the earnings, shipping methods and reviews unchanged |
| `OrderViews.CartOfKey` | app/backend/apps/orders/views.py:27 | the session-cart lookup as written finds a cart with the key whenever one exists, deleted or not, and reports none only when no row has the key (also line 113 of the same file) |
| `OrderViews.LiveCartOfKey` | app/backend/apps/orders/views.py:27 | the corrected lookup finds a live cart with the key, and reports none exactly when every row with the key is soft-deleted (also line 113 of the same file) |
| `OrderViews.DeletedSessionCartFoundAgain` | app/backend/apps/orders/views.py:27-40 | after a merge soft-deletes the only cart with the key, the lookup as written still returns that cart while the live lookup finds none (also lines 113-133 of the same file) |
| `OrderViews.MergeSessionAsWritten` | app/backend/apps/orders/views.py:20-41 | the merge step as written keeps the table's length, changes nothing when no row has the key, and otherwise leaves the cart the key finds soft-deleted (Findings row 3) |
| `OrderViews.MergeSessionFound` | app/backend/apps/orders/views.py:27-40 | after one merge as written the same key still finds the same session cart with its lines in place, and the user's cart holds the unclamped merge of those lines (Findings row 3) |
| `OrderViews.SessionCartMergedTwice` | app/backend/apps/orders/views.py:20-41 | two requests with the same key, as written: the soft-deleted session cart is found again and its line is merged into the user's cart a second time (Findings row 3) |
| `OrderViews.MergeLineTwice` | app/backend/apps/orders/views.py:30-37 | merging the same line twice without clamping leaves its product with the cart's quantity plus twice the line's quantity (Findings row 3) |
| `OrderViews.MergeLineAdds` | app/backend/apps/orders/views.py:30-37 | one unclamped merge of a line gives its product what the cart held of it (0 without a line) plus the line's quantity |
| `OrderViews.MergeLinesAdds` | app/backend/apps/orders/views.py:29-37 | after the unclamped loop, each session line's product holds what the cart held plus that line's quantity, still one line per product |
| `OrderViews.MergeLinesAtLine` | app/backend/apps/orders/views.py:29-37 | after the loop, a session line's product holds the merged quantity of that line and what the cart held |
| `OrderViews.MergeLinesSingle` | app/backend/apps/orders/views.py:29-37 | the loop over a one-line session cart is that one line merged |
| `OrderViews.CartOfKeySameKeys` | app/backend/apps/orders/views.py:27 | the lookup by session key depends only on the carts' keys, so changing lines or deletion flags does not change which cart it finds |
| `OrderViews.LineOfDistinct` | app/backend/apps/orders/views.py:30 | with one line per product, looking up a line's product finds that very line |
| `OrderViews.UserCartOrNew` | app/backend/apps/orders/views.py:21 | the result is a cart of the user: the existing one with the table unchanged, or a new empty one appended (also line 114 of the same file) |
| `OrderViews.LineOf` | app/backend/apps/orders/views.py:30-34 | a line of the product is found when one exists, and none is reported exactly when no line has that product (also lines 77, 120-124 of the same file) |
| `OrderViews.Clamp` | app/backend/apps/orders/views.py:82-83 | the clamped quantity is at most both the quantity and the inventory, and equals one of them (also lines 127-128 of the same file) |
| `OrderViews.LineOfSameProducts` | app/backend/apps/orders/views.py:30-34 | which line a product has depends only on the products of the lines, not on their quantities |
| `OrderViews.LineOfAppend` | app/backend/apps/orders/views.py:30-34 | a line appended for a product the cart lacks becomes that product's line, and the other products' lines stay where they were |
| `OrderViews.MergeLineEffect` | app/backend/apps/orders/views.py:30-37 | merging one line gives its product the merged quantity, leaves every other product's quantity alone and keeps one line per product (also lines 120-128 of the same file) |
| `OrderViews.Merged` | app/backend/apps/orders/views.py:119-128 | a new line gets the incoming quantity; an existing one gets the sum, and with clamping the sum capped at the stock |
| `OrderViews.MergeLine` | app/backend/apps/orders/views.py:119-128 | get_or_create on the product adds one line exactly when the product had none, keeps every line's product, and leaves lines of other products as they were |
| `OrderViews.MergeLinesShape` | app/backend/apps/orders/views.py:29-37 | the merge loop keeps one line per product, and adds no line for an unknown product (also lines 119-129 of the same file) |
| `OrderViews.MergeLinesAt` | app/backend/apps/orders/views.py:29-37 | after the whole loop, a product of the session cart has the merged quantity, and any other product keeps what it had (also lines 119-129 of the same file) |
| `OrderViews.MergeLinesEffect` | app/backend/apps/orders/views.py:29-37 | the loop's effect on every product at once: each session line is merged into the result, other products keep their quantities (also lines 119-129 of the same file) |
| `OrderViews.MergeItems` | app/backend/apps/orders/views.py:119-130 | the loop computes the functional merge, and its counter ends at the number of session lines |
| `OrderViews.MergeLines` | app/backend/apps/orders/views.py:118-129 | the merge loop keeps every existing line's product and adds at most one line per session line |
| `OrderViews.SoftDeleted` | app/backend/apps/orders/views.py:40 | the deleted session cart is marked deleted and is otherwise unchanged, lines included (also line 133 of the same file) |
| `OrderViews.ResolveCart` | app/backend/apps/orders/views.py:18-50 | the cart get_or_create_cart returns is a row of the new table |
| `OrderViews.SessionCartIsNotUserCart` | app/backend/apps/orders/views.py:21-27 | the user's cart and a cart found by session key are never the same row |
| `OrderViews.ResolveCartValid` | app/backend/apps/orders/views.py:18-50 | get_or_create_cart keeps the cart table valid: one line per product, only known products, unique owners |
| `OrderViews.ResolveCartLogin` | app/backend/apps/orders/views.py:20-42 | for a signed-in user, the merge runs only when the user's cart already existed and a live cart has the session key; it then adds each session quantity with no stock clamp, keeps the user's other lines, soft-deletes the session cart and leaves every other cart alone; otherwise the table is unchanged, or gains only a new empty user cart |
| `OrderViews.ResolveCartAnonymous` | app/backend/apps/orders/views.py:43-48 | an anonymous request gets the cart of its session key (a new key when it has none), created empty when no row has that key |
| `OrderViews.GetOrCreateCart` | app/backend/apps/orders/views.py:18-50 | on the store, the cart table becomes what ResolveCart gives, the store stays valid and no other table changes |
| `OrderViews.AddLineEffect` | app/backend/apps/orders/views.py:76-88 | adding a product already in the cart gives min(existing + quantity, inventory), a new product gets exactly the quantity, other lines are untouched, and there is still one line per product |
| `OrderViews.AddLine` | app/backend/apps/orders/views.py:76-88 | perform_create adds at most one line and leaves the lines of other products as they were |
| `OrderViews.AddToCart` | app/backend/apps/orders/views.py:71-88 | perform_create resolves the cart, then applies the line update to that cart alone; no other table changes |
| `OrderViews.ReplaceCartValid` | app/backend/apps/orders/views.py:37-40 | saving one cart with the same owner and key and valid lines keeps the cart table valid (also lines 130-133 of the same file) |
| `OrderViews.UserCartOrNewValid` | app/backend/apps/orders/views.py:114 | finding or creating the user's cart keeps the table valid and every existing row as it was |
| `OrderViews.MergeCartRefused` | app/backend/apps/orders/views.py:104-110 | merge_cart changes nothing unless a signed-in user names a live session cart; the reply is 401 for an anonymous caller and 200 otherwise (also lines 140-141 of the same file) |
| `OrderViews.MergeIntoEffect` | app/backend/apps/orders/views.py:113-138 | a successful merge gives each session product the session quantity when the user's cart lacked it, and min(existing + session, inventory) otherwise; the user's other lines stay; the session cart is soft-deleted with its lines; no other cart changes, and the table stays valid |
| `OrderViews.MergeInto` | app/backend/apps/orders/views.py:113-134 | the merge adds at most the user's new cart, soft-deletes the session cart, and leaves every cart of other users as it was |
| `OrderViews.MergeIntoValid` | app/backend/apps/orders/views.py:113-134 | the merge keeps the cart table valid, and the user's cart is never the session cart |
| `OrderViews.MergeCartOf` | app/backend/apps/orders/views.py:103-141 | the reply is 401 for an anonymous caller and 200 otherwise, and the cart table gains at most one cart |
| `OrderViews.MergeCart` | app/backend/apps/orders/views.py:101-141 | on the store, the reply and the new cart table are those of the merge specification; the store stays valid and no other table changes |
| `OrderViews.VendorsOf` | app/backend/apps/orders/views.py:181-189 | the vendors are listed once each; every item's vendor is listed, and only vendors of some item are |
| `OrderViews.GrossOfAbsent` | app/backend/apps/orders/views.py:181-189 | a vendor with no item has a gross of 0 |
| `OrderViews.GrossOf` | app/backend/apps/orders/views.py:181-189 | a vendor's gross over no items is 0 |
| `OrderViews.GrossAtMostTotal` | app/backend/apps/orders/views.py:181-189 | with no negative item total, each vendor's gross lies between 0 and the sum over all items |
| `OrderViews.GrossSumStep` | app/backend/apps/orders/views.py:181-189 | one more item adds its total to the sum over distinct vendors exactly when its vendor is one of them |
| `OrderViews.GrossSumsToTotal` | app/backend/apps/orders/views.py:181-189 | the gross amounts over the order's vendors add up to the sum of all item totals, so no item is lost or counted twice |
| `OrderViews.VendorTotalsStep` | app/backend/apps/orders/views.py:182-189 | one more item adds its vendor to the list if the vendor is new, and adds its total to that vendor's gross alone |
| `OrderViews.VendorTotalsKept` | app/backend/apps/orders/views.py:182-189 | one turn of the grouping loop keeps the keys equal to the vendors seen so far and each value equal to that vendor's gross so far |
| `OrderViews.AddToVendorTotals` | app/backend/apps/orders/views.py:182-189 | the loop body: after item i, the keys are the vendors of the first i + 1 items and each value is that vendor's gross over them |
| `OrderViews.VendorTotals` | app/backend/apps/orders/views.py:181-189 | the grouping loop produces exactly the order's vendors as keys, each mapped to the sum of the totals of its items |
| `OrderViews.NewEarnings` | app/backend/apps/orders/views.py:191-200 | a new row is pending, unpaid, for its order and vendor, with a 5 % fee and the remaining 95 % as net |
| `OrderViews.EarningsRows` | app/backend/apps/orders/views.py:181-200 | there is one row per vendor, in vendor order, carrying that vendor's gross and split |
| `OrderViews.EarningsRowsVendor` | app/backend/apps/orders/views.py:195-200 | row k is for the k-th vendor |
| `OrderViews.EarningsForEveryVendor` | app/backend/apps/orders/views.py:181-200 | every vendor of the order's items gets an earnings row |
| `OrderViews.EarningsOnlyForVendors` | app/backend/apps/orders/views.py:181-200 | every row is for a vendor of some item, and no vendor gets two rows, so (vendor, order) stays unique |
| `OrderViews.EarningsSplitAmounts` | app/backend/apps/orders/views.py:191-200 | each row is for this order and pending, carries its vendor's gross, and has fee + net = gross with the fee at 5 % of the gross |
| `OrderViews.EarningsAsWritten` | app/backend/apps/orders/views.py:193 | as written, no row is ever created, and the step raises exactly when the order has items |
| `OrderViews.ItemsOfAppend` | app/backend/apps/orders/views.py:182 | an order's items in a concatenated table are its items in each part, in order |
| `OrderViews.ItemsOfAll` | app/backend/apps/orders/views.py:182 | when every row belongs to the order, its items are the whole table |
| `OrderViews.ItemsOfNone` | app/backend/apps/orders/views.py:182 | when no row belongs to the order, it has no items |
| `OrderViews.CreatedOrderItems` | app/backend/apps/orders/views.py:178-200 | after a successful checkout the order's items are exactly the new rows, one per cart line; so the earnings step as written always raises, and the corrected one creates at least one row |
| `OrderViews.SplitEarnings` | app/backend/apps/orders/views.py:181-200 | the grouping loop and the row loop produce exactly the earnings rows of the specification |
| `OrderViews.RecordEarnings` | app/backend/apps/orders/views.py:181-200 | the corrected earnings step (Findings row 1): the store's earnings grow by exactly the order's earnings rows; carts, orders, items and shipping methods stay as they were and the store stays valid. As written the step raises TypeError and adds no row |
| `OrderViews.OrderCreate` | app/backend/apps/orders/views.py:174-205 | the view with the earnings step corrected (Findings row 1): invalid input gives 400 and changes nothing; otherwise the tables become checkout's result, a refused checkout gives 400 and creates no earnings, and a created order gives 201 with its earnings rows appended. As written a created order ends in TypeError (a server error) with the order kept and no earnings row |
| `OrderViews.CancelOrder` | app/backend/apps/orders/views.py:208-230 | an order that is missing or belongs to another user gives 404, a non-cancellable one gives 400, and neither changes anything; success cancels the order with the given reason or "Customer request" and restores the inventory of its items |
| `OrderViews.StatusUpdated` | app/backend/apps/orders/views.py:297-314 | the status becomes the target; paid_at, shipped_at and delivered_at are set only on entering PAID, SHIPPED and DELIVERED from another status; the tracking number is stored only on entering SHIPPED and only when it is non-empty; no other field changes |
| `OrderViews.SameStatusNoChange` | app/backend/apps/orders/views.py:301 | setting the current status again changes no timestamp and no tracking number (also lines 306, 311 of the same file) |
| `OrderViews.AnyTransition` | app/backend/apps/orders/views.py:291-314 | every status may follow every other, CANCELLED to PAID included, and the order number is kept |
| `OrderViews.StatusUpdateIdempotent` | app/backend/apps/orders/views.py:297-314 | applying the same update twice gives the same order as applying it once |
| `OrderViews.ReleaseEarnings` | app/backend/apps/orders/views.py:303-304 | the rows of the order become available and every other row is kept |
| `OrderViews.ReleaseEarningsEffect` | app/backend/apps/orders/views.py:303-304 | only the status of the order's rows changes, other rows are untouched, and a second release changes nothing |
| `OrderViews.UpdateOrderStatus` | app/backend/apps/orders/views.py:282-325 | a missing order gives 404 and an unknown status gives 400, with no change; otherwise the order becomes StatusUpdated, earnings are released only on entering PAID from another status, and no other table changes |
| `OrderSignals.RestoredOnDelete` | app/backend/apps/orders/signals.py:16-21 | deleting an item of a PENDING or CANCELLED order raises its product's inventory by the item's quantity; for any other status the product table is unchanged (`OrderSignals.RestoresOnDelete` is that status test) |
| `OrderSignals.OnOrderItemDelete` | app/backend/apps/orders/signals.py:16-21 | on the store, the product table becomes RestoredOnDelete, and the orders and every other table stay as they were |
| `OrderSignals.DeleteRestoresOnlyItsProduct` | app/backend/apps/orders/signals.py:19-21 | only the deleted item's product changes, only in its inventory, and by exactly the quantity when the status restores |
| `OrderSignals.CancelThenDeleteRestoresTwice` | app/backend/apps/orders/signals.py:19-21 | deleting an item of an order already cancelled gives the item's quantity back a second time, on top of what the cancel restored (also app/backend/apps/orders/models.py:168-180) |
| `OrderAdmin.CartOwner` | app/backend/apps/orders/admin.py:18-21 | the owner is the user's email, else "Anonymous (" + the first 8 characters of the session key + "...)", and fails when the key is missing too |
| `OrderAdmin.AnonymousLabelShowsEight` | app/backend/apps/orders/admin.py:21 | an anonymous owner label shows at most 8 characters of the key, and exactly its first 8 when the key is that long |
| `OrderAdmin.MarkedPaid` | app/backend/apps/orders/admin.py:137-139 | the order becomes PAID with paid_at overwritten, and nothing else changes |
| `OrderAdmin.MarkedShipped` | app/backend/apps/orders/admin.py:153-155 | the order becomes SHIPPED with shipped_at set, the tracking number is kept, and nothing else changes |
| `OrderAdmin.MarkPaidLaxerThanEndpoint` | app/backend/apps/orders/admin.py:133-143 | on an order already PAID, the endpoint changes nothing while mark_paid stamps paid_at again; a CANCELLED order is marked paid as readily as any other (also app/backend/apps/orders/views.py:301-304) |
| `OrderAdmin.MarkPaid` | app/backend/apps/orders/admin.py:133-145 | an unknown id changes nothing; otherwise the order becomes MarkedPaid, all its earnings become available, the message names the order number, and carts, items and shipping methods are untouched |
| `OrderAdmin.MarkShipped` | app/backend/apps/orders/admin.py:149-158 | an unknown id changes nothing; otherwise the order becomes MarkedShipped; earnings and every other table are untouched |
| `OrderAdmin.PaidOutRows` | app/backend/apps/orders/admin.py:232 | each selected row becomes paid with paid_at set and keeps its other fields; unselected rows are untouched |
| `OrderAdmin.PaidOutTwice` | app/backend/apps/orders/admin.py:232 | paying out the same rows twice is the same as paying out once at the later time |
| `OrderAdmin.MarkAsPaid` | app/backend/apps/orders/admin.py:230-233 | the selected rows are paid out, the count reported is the number of selected rows, and no other table changes |
| `Music.ClearFeatured` | app/backend/apps/music/models.py:56 | every featured flag is cleared and nothing else about any track changes |
| `Music.SavedTracks` | app/backend/apps/music/models.py:53-57 | the saved row is stored; a featured save leaves it the only featured track, with every other row changed in its flag alone; a non-featured save touches no other row; at most one featured track is preserved |
| `Music.CountedPlay` | app/backend/apps/music/models.py:59-62 | the track's play count rises by exactly one, nothing else changes, and an unknown id changes nothing |
| `Music.FeaturedTrack` | app/backend/apps/music/models.py:72-75 | the result is a featured track, and there is none exactly when no track is featured |
| `Music.FormattedDuration` | app/backend/apps/music/models.py:64-70 | no duration gives "00:00", and the text is five characters long below 100 minutes and never shorter |
| `Music.SplitTwoFields` | app/backend/apps/music/models.py:69-70 | two padded fields joined by ':' split back into those two fields |
| `Music.FormattedDurationRoundTrip` | app/backend/apps/music/models.py:64-70 | the text reads back as the duration: two digit fields, seconds a two-digit number below 60, and minutes × 60 + seconds equal to the duration (0 when there is none) |
| `Music.MembersOf` | app/backend/apps/music/models.py:88-92 | a playlist's tracks are exactly those of its memberships, and there are no more of them than memberships (also lines 120-129 of the same file) |
| `Music.MembersKnown` | app/backend/apps/music/models.py:120-124 | every track of a playlist is a stored track |
| `Music.MembersOfAppend` | app/backend/apps/music/models.py:120-129 | a new membership adds its track to the end of its own playlist's tracks and changes no other playlist's |
| `Music.EmptyPlaylist` | app/backend/apps/music/models.py:107-117 | a playlist with no membership has track count 0 and total duration 0 (the `or 0` of the empty sum) |
| `Music.AggregatesAppend` | app/backend/apps/music/models.py:107-117 | a membership of the playlist adds one to its count and the track's duration to its total; a membership of another playlist changes neither |
| `Music.SumDurationsAtMost` | app/backend/apps/music/models.py:107-112 | when no track is longer than a bound, a list of tracks lasts at most bound × its length |
| `Music.TotalDurationAtMost` | app/backend/apps/music/models.py:107-117 | a playlist lasts at most bound × its track count when no track is longer than the bound |
| `Music.TrackCount` | app/backend/apps/music/models.py:114-117 | the count is at most the number of memberships, and 0 exactly when the playlist has none |
| `Music.TotalDuration` | app/backend/apps/music/models.py:107-112 | a playlist without tracks lasts 0 seconds (`Sum or 0`) |
| `Music.GetOrCreateSettings` | app/backend/apps/music/models.py:207-211 | the result is the row with key 1, which afterwards exists; existing rows are kept, and a created row has the field defaults |
| `Music.GetSettingsIdempotent` | app/backend/apps/music/models.py:207-211 | a second call changes nothing and returns the same row |
| `Music.MusicLibrary.constructor` | app/backend/apps/music/models.py:1-211 | a new library is valid and empty |
| `Music.MusicLibrary.SaveTrack` | app/backend/apps/music/models.py:53-57 | the track table becomes SavedTracks; the library stays valid and no other table changes |
| `Music.MusicLibrary.IncrementPlayCount` | app/backend/apps/music/models.py:59-62 | the track table becomes CountedPlay; no other table changes |
| `Music.MusicLibrary.GetSettings` | app/backend/apps/music/models.py:207-211 | the row returned and the new settings table are those of GetOrCreateSettings; no other table changes |
| `MusicSerializers.ValidateTrackFile` | app/backend/apps/music/serializers.py:57-72 | a file is accepted exactly when its lower-cased extension is .mp3, .wav, .ogg or .m4a and it is at most 50 MB; the type message comes before the size message |
| `MusicSerializers.TrackFileCheckRedundant` | app/backend/apps/music/serializers.py:57-72 | validate_file accepts exactly what the model field's validator accepts, so the file errors are that validator's and its wrong-type message never reaches a client (also app/backend/apps/common/utils.py:34-43) |
| `MusicSerializers.FileErrors` | app/backend/apps/music/serializers.py:57-70 | the `file` field reports at most one error; when validate_audio_file refuses, its message is the one reported, and there is none iff both checks accept |
| `MusicSerializers.ValidateDuration` | app/backend/apps/music/serializers.py:74-79 | a duration is accepted exactly when it is 1 to 3600 seconds, each side with its own message |
| `MusicSerializers.UploadErrors` | app/backend/apps/music/serializers.py:47-79 | an upload has no error exactly when its file passes and its duration is 1 to 3600 seconds |
| `MusicSerializers.NewTrack` | app/backend/apps/music/serializers.py:81-83 | the new track is owned by the uploader, carries the given fields, and is live, not featured, unplayed and at sort order 0 (also app/backend/apps/music/admin.py:55-58) |
| `MusicSerializers.NewPlaylist` | app/backend/apps/music/serializers.py:143-145 | the new playlist's creator is the requesting user, it carries the given fields, and it is live (also app/backend/apps/music/admin.py:123-126) |
| `MusicSerializers.ValidateVolume` | app/backend/apps/music/serializers.py:174-177 | a volume is accepted exactly when it is 0 to 100 |
| `MusicSerializers.ValidateCrossfade` | app/backend/apps/music/serializers.py:179-182 | a crossfade is accepted exactly when it is 0 to 10 seconds |
| `MusicSerializers.ValidateTrackIds` | app/backend/apps/music/serializers.py:188-203 | a list is accepted exactly when it is non-empty, every id has a track row and no id repeats; an empty list and an unknown id each get their own message |
| `MusicSerializers.TrackIdChecks` | app/backend/apps/music/serializers.py:195-201 | the count of existing ids equals the length exactly when every id exists and none repeats, and then the duplicate test passes |
| `MusicSerializers.DuplicateBranchUnreachable` | app/backend/apps/music/serializers.py:199-201 | no list ever gets the duplicate message: repeats are already caught by the count test |
| `MusicSerializers.ElementsCard` | app/backend/apps/music/serializers.py:200 | `len(set(value))` is at most `len(value)`, and equal exactly when no id repeats |
| `MusicViews.ParseIntNoMinus` | app/backend/apps/music/views.py:80-81 | `int()` of text without '-' never gives a negative number |
| `MusicViews.RangeParts` | app/backend/apps/music/views.py:75 | the split header has at least one field and no field holds '-' (also line 79 of the same file) |
| `MusicViews.RangeOfParts` | app/backend/apps/music/views.py:80-81 | a split header is never read as "no range" |
| `MusicViews.ParseRangeHeader` | app/backend/apps/music/views.py:75-81 | the header means "no range" exactly when it is empty after stripping Python's whitespace, Unicode spaces such as U+00A0 included |
| `MusicViews.UnicodeBlankHeaderIsNoRange` | app/backend/apps/music/views.py:75-77 | a Range header of a NO-BREAK SPACE and an IDEOGRAPHIC SPACE strips to nothing, so it means "no range" and the whole file is sent |
| `MusicViews.PartsOfBytesHeader` | app/backend/apps/music/views.py:75 | "bytes=" followed by a field list is split like the field list itself (also line 79 of the same file) |
| `MusicViews.SplitAtDash` | app/backend/apps/music/views.py:79 | two '-'-free fields joined by '-' split back into those fields |
| `MusicViews.HeaderOfRest` | app/backend/apps/music/views.py:75-81 | a "bytes=" header is read from its field list alone |
| `MusicViews.RangeOfNumbers` | app/backend/apps/music/views.py:80-81 | two numerals are read as that start and that end |
| `MusicViews.RangeOfStart` | app/backend/apps/music/views.py:80-81 | a numeral and an empty end are read as an open range from that start |
| `MusicViews.RangeOfEnd` | app/backend/apps/music/views.py:80-81 | an empty start and a numeral are read as start 0 and that end |
| `MusicViews.ParseRangeOfPositions` | app/backend/apps/music/views.py:75-81 | "bytes=a-b" reads back as start a and end b |
| `MusicViews.ParseRangeOpenEnd` | app/backend/apps/music/views.py:75-81 | "bytes=a-" is an open range from a (also lines 87-88 of the same file) |
| `MusicViews.ParseRangeSuffixReadAsPrefix` | app/backend/apps/music/views.py:80-81 | "bytes=-n" is read as the bytes 0 to n, not as the last n bytes |
| `MusicViews.ParseRangeWithoutDash` | app/backend/apps/music/views.py:79-81 | a header with no '-' has a single field and fails with an IndexError |
| `MusicViews.StreamAsWritten` | app/backend/apps/music/views.py:75-123 | as written, the reply is a server error exactly when the header is malformed or when both positions are below the size and the count end − start + 1 is -2 or less (`f.read` raises ValueError, which only a FileNotFoundError handler surrounds) |
| `MusicViews.StreamResponse` | app/backend/apps/music/views.py:75-123 | a 206 goes out exactly for a start no later than the end and an end inside the file, with the bytes start to end, their count as Content-Length and the matching Content-Range; any other range gets 416 with "bytes */size"; no header gets the whole file; a missing file gets 404 and a malformed header an error |
| `MusicViews.StreamAgreesOnOrderedRanges` | app/backend/apps/music/views.py:87-108 | on every range whose start is not after its end, the corrected reply is the reply as written |
| `MusicViews.ReversedRangeAsWritten` | app/backend/apps/music/views.py:91-108 | for "bytes=a-b" with a = b + 2 below the size, the code as written sends a 206 with Content-Length -1 and the bytes from a to the end, while the corrected reply is 416 |
| `MusicViews.ReversedRangeRaises` | app/backend/apps/music/views.py:91-123 | for "bytes=a-b" with b + 3 ≤ a below the size, the code as written reads a count of -2 or less, which raises ValueError and gives a server error, while the corrected reply is 416 |
| `MusicViews.NegativeContentLength` | app/backend/apps/music/views.py:91-108 | on a ten-byte file the range 5-3 gets, as written, a 206 with Content-Length -1 and the five bytes from 5 to the end; corrected, it gets 416 |
| `MusicViews.SessionAfter` | app/backend/apps/music/views.py:340-345 | an anonymous request always ends with a non-empty session key, a new one only when it had none, and a request with a key keeps it |
| `MusicViews.PlayRecord` | app/backend/apps/music/views.py:333-347 | the row names the track, the time and the user; an anonymous play carries the session key and a user's play none; the address is get_client_ip's; duration_played defaults to 0 and completed to false |
| `MusicViews.LogPlayHistory` | app/backend/apps/music/views.py:324-347 | the track's play count rises by one and exactly one history row is appended; nothing else changes |
| `MusicViews.StreamTrack` | app/backend/apps/music/views.py:58-123 | a missing or soft-deleted track gets 404 with no change; otherwise the play is logged first, whatever the reply, and the reply is the corrected StreamResponse |
| `MusicViews.LogPlay` | app/backend/apps/music/views.py:268-282 | a missing or soft-deleted track gets 404 with no change; otherwise the play is logged with the request's data and the reply is "Play logged." |
| `MusicViews.FeaturedOnly` | app/backend/apps/music/views.py:145-151 | afterwards exactly the chosen track is featured, every other field is unchanged, and it is the featured track |
| `MusicViews.SetFeatured` | app/backend/apps/music/views.py:138-153 | an unknown id gets 400 "Track not found." with no change; otherwise the tracks become FeaturedOnly and the message names the track (also app/backend/apps/music/serializers.py:206-216) |
| `MusicViews.ReorderSteps` | app/backend/apps/music/views.py:166-168 | the i-th listed track gets sort order i, unlisted tracks are untouched, and no track is added or removed |
| `MusicViews.ReorderTracks` | app/backend/apps/music/views.py:156-170 | a list the validator rejects gets 400 with its message and no change; otherwise the i-th listed track has sort order i and no other field changes, so the sort orders follow the list, and unlisted tracks are untouched |
| `MusicViews.DeleteTrack` | app/backend/apps/music/views.py:173-192 | an unknown id gets 404; otherwise the track is soft-deleted through Track.save, and a featured track stays the featured track after its deletion |
| `MusicViews.UploadTrack` | app/backend/apps/music/views.py:41-44 | an invalid upload gets 400 with its first error and no change; a valid one adds exactly the new track |
| `MusicViews.CreatePlaylist` | app/backend/apps/music/views.py:195-198 | the reply is 201 and exactly the new playlist is added |
| `MusicViews.SortOrdersOf` | app/backend/apps/music/models.py:120-129 | a playlist has one sort order per membership |
| `MusicViews.AddedToPlaylist` | app/backend/apps/music/views.py:219-223 | a membership is created exactly when the pair is not yet in the playlist, and otherwise nothing changes |
| `MusicViews.AddToPlaylistEffect` | app/backend/apps/music/views.py:219-226 | a created membership appends the track to the playlist, adds one to its count and the track's duration to its total, keeps the memberships valid and changes no other playlist |
| `MusicViews.SortOrdersOfAppend` | app/backend/apps/music/views.py:219-223 | an appended membership adds its sort order to the end of its own playlist's orders only |
| `MusicViews.AddKeepsPositions` | app/backend/apps/music/views.py:222 | when a playlist's sort orders are 0, 1, …, n-1, an added track takes order n |
| `MusicViews.RemoveThenAddTies` | app/backend/apps/music/views.py:222 | after a removal the count no longer points past the last position: with tracks at orders 0 and 1, removing the first and adding another leaves two tracks at order 1 (also lines 242-246 of the same file) |
| `MusicViews.AddTrackToPlaylist` | app/backend/apps/music/views.py:211-234 | an unknown playlist or track gets 404 with no change; otherwise the memberships become AddedToPlaylist, with "added" or "already in playlist" as the message |
| `MusicViews.RemovedFromPlaylist` | app/backend/apps/music/views.py:242-246 | exactly the memberships other than the pair remain |
| `MusicViews.RemovedKeepsOthers` | app/backend/apps/music/views.py:242-246 | after removal the pair is absent, and a present pair leaves one membership fewer |
| `MusicViews.RemoveTrackFromPlaylist` | app/backend/apps/music/views.py:237-254 | a pair not in the playlist gets 404 with no change; otherwise the membership is removed and nothing else changes |
| `MusicViews.RemovedValid` | app/backend/apps/music/views.py:242-246 | removal keeps the memberships valid |
| `MusicViews.UpdateSettings` | app/backend/apps/music/views.py:285-291 | the settings row with key 1 exists afterwards even when validation fails; an invalid volume or crossfade gets 400 with its message and no other change; the reply is 200 exactly when both are valid, and then the row holds the given fields (also app/backend/apps/music/serializers.py:174-182) |
| `MusicAdmin.TotalDurationDisplay` | app/backend/apps/music/admin.py:114-120 | the column is at least five characters long |
| `MusicAdmin.SplitThreeFields` | app/backend/apps/music/admin.py:119 | three padded fields joined by ':' split back into those fields |
| `MusicAdmin.TotalDurationDisplayRoundTrip` | app/backend/apps/music/admin.py:114-120 | the column reads back as the total: from an hour on, three digit fields with hours × 3600 + minutes × 60 + seconds equal to the total; below, minutes and seconds only |
| `MusicAdmin.DisplayAgreesWithFormattedDuration` | app/backend/apps/music/admin.py:114-120 | the playlist column has the track's mm:ss text exactly when the total is below an hour (also app/backend/apps/music/models.py:64-70) |
| `MusicAdmin.SetAsFeatured` | app/backend/apps/music/admin.py:62-72 | every flag is cleared; with a non-empty selection exactly its first track ends featured and the message names it; with an empty one no track is featured and no message goes out |
| `MusicAdmin.FeaturedOnlyIdempotent` | app/backend/apps/music/admin.py:62-72 | featuring the same track a second time changes nothing |
| `MusicAdmin.Unfeatured` | app/backend/apps/music/admin.py:74-75 | a track stays featured exactly when it was featured and not selected, and nothing else changes |
| `MusicAdmin.UnfeaturedFeaturedTrack` | app/backend/apps/music/admin.py:74-75 | at most one track stays featured: the featured track keeps its flag unless it is selected, and then none is featured |
| `MusicAdmin.RemoveFeatured` | app/backend/apps/music/admin.py:74-78 | the tracks become Unfeatured, no other table changes, and the fixed message goes out |
| `MusicAdmin.HistoryUserLabel` | app/backend/apps/music/admin.py:143-144 | the label is the user's email, else "Anonymous (" + the first 8 characters of the session key + "...)", and fails when both are missing |
| `MusicAdmin.LoggedRowsHaveLabel` | app/backend/apps/music/admin.py:143-144 | every row the play log writes has a user or a session key, so its label never fails (also app/backend/apps/music/views.py:340-345) |
| `MusicAdmin.HistoryAddAllowed` | app/backend/apps/music/admin.py:147-148 | history rows can never be added in the admin |
| `MusicAdmin.HistoryChangeAllowed` | app/backend/apps/music/admin.py:150-151 | history rows can never be edited in the admin |
| `MusicAdmin.HistoryAfter` | app/backend/apps/music/admin.py:147-151 | an add or an edit leaves the history table as it was; a delete removes exactly that row; no event adds a row |
| `MusicAdmin.HistoryAdminOnlyRemoves` | app/backend/apps/music/admin.py:147-151 | after any sequence of admin events, every remaining history row was already there, and the table is no longer |
| `MusicAdmin.SettingsAddAllowed` | app/backend/apps/music/admin.py:171-173 | a settings row may be added exactly when the table is empty |
| `MusicAdmin.SettingsDeleteAllowed` | app/backend/apps/music/admin.py:175-176 | a settings row may never be deleted |
| `MusicAdmin.SettingsAfter` | app/backend/apps/music/admin.py:171-176 | no event removes a row; an add to a non-empty table and every delete change nothing (also app/backend/apps/music/models.py:207-211) |
| `MusicAdmin.SettingsStaySingle` | app/backend/apps/music/admin.py:171-176 | as long as every admin add gets key 1, any run of events keeps the table to at most the one row with key 1, and no row is ever lost (also app/backend/apps/music/models.py:207-211) |
| `MusicAdmin.SettingsLockedAfterRead` | app/backend/apps/music/admin.py:171-173 | once get_settings has run, the row with key 1 exists and the admin offers no add (also app/backend/apps/music/models.py:207-211) |
| `MusicAdmin.SecondSettingsRow` | app/backend/apps/music/admin.py:171-173 | a row added in the admin under any key other than 1 leads get_settings to create a second row (also app/backend/apps/music/models.py:207-211) |

## Left out

- File I/O: `open`, `seek`, `read` and `os.path.getsize` in stream_track are replaced by the file's bytes as a parameter, with `None` for a missing file. No streaming in chunks, no MIME type, and no Cache-Control or Accept-Ranges headers are modelled.
- Clock and randomness: `timezone.now()`, `uuid4()` and `session.create()` are parameters of the members that use them.
- Authentication: JWT issuance, the placeholder Google sign-in, Django's `authenticate` and `validate_password` are outside the model. The user a request carries is a parameter.
- Concurrency: requests are taken one at a time. The unlocked inventory read-modify-save of checkout is not modelled under racing requests.
- The OrderItem post_save hook `create_vendor_earnings` has no effect, so it has no member. Nothing is created on an item save.
- Catalog views, filters and serializers, all URL routing, the account adapters, the users signals, and the catalog and users admin are query construction, display configuration or hooks. They are not part of this model.
- Read-only endpoints are not modelled: product and order listings, order analytics, vendor earnings summaries, music statistics, current_featured and the play history list. They serialize or aggregate through the ORM.
- CartItemDetailView (update and delete of one cart line, app/backend/apps/orders/views.py:91-98) is not modelled. Its destroy is the generic one, which calls CartItem.delete; CartItem is a BaseModel, so the line is only soft-deleted. No manager filters deleted rows, so the removed line stays in `cart.items.all()`, and a later checkout still reserves and charges it. The model's cart lines do carry a deletion flag, and Reserve and checkout read every line whatever its flag, but no modelled operation soft-deletes a single line.
- `Catalog.StoredRating`: rounds the exact mean half-even to two places. Avg returns a float first, and that float can fall on the other side of a tie only when the review count is a multiple of 40; that case is not modelled.
- Framework field validation is not modelled, except where its messages reach the model: required fields, `min_value`, integer parsing and choice checks are taken as passed. The exception is the choice and length messages of checkout.
- Display-only admin columns and redirects are not modelled. Neither are the admin selection's order, which the caller supplies as a sequence, nor the messages framework.
- Track cover image, genre, year and description are not modelled; neither are playlist descriptions, covers, or any image field.
- `Text.Lower` and `Text.Upper` map ASCII letters only; Python's `lower()` and `upper()` follow Unicode. Their results feed only the extension checks and the upper-cased uuid hex. The only non-ASCII characters that `lower()` maps to ASCII letters are U+212A KELVIN SIGN (to "k") and U+0130 (to "i" plus a combining dot), and no accepted extension contains either result, so the verdicts agree.
- `int()` accepts underscores between digits ("1_0"), and `ParseInt` does not model this.
- `OrderSerializers.NewOrder`: tax_amount and total_amount are exact products. The database's rounding to two decimals on save is not modelled.
- `OrderViews.NewEarnings`: the fee and net are exact 5 % and 95 % of the gross. The database's rounding to two decimals is not modelled.
- `Music.FeaturedTrack`: requires that at most one track is featured. This is an invariant every modelled operation keeps (`Music.MusicLibrary.Valid`). With several featured rows, `first()` would pick by the table's ordering, which the model does not capture.
- Error replies: a 400 from a serializer carries every failing field's messages. The model's `Reply` keeps only the first message (UploadTrack, UpdateSettings, OrderCreate and the other members that validate). Which requests are refused, and with which status, is modelled; the full error body is not.
- `OrderViews.SessionCartMergedTwice`: states the double merge for a session cart of one line. For a session cart of any size, `OrderViews.MergeLinesAdds` gives each line's added quantity for one merge.
- `MusicViews.StreamResponse` and `MusicViews.StreamAsWritten`: Content-Length is the integer the code passes to `str()`.
- PlayHistory's duration_played is only a number. Nothing relates it to the track's duration.

## Findings

| source | as written | input that shows it | evidently intended | confidence | as-written member | corrected member |
|---|---|---|---|---|---|---|
| app/backend/apps/orders/views.py:193 | `gross_amount * 0.05` multiplies the Decimal sum of item totals by a float, which raises TypeError. No earnings row is ever written, and the request fails after checkout has committed the order. | any successful checkout, e.g. one cart line of one product | a 5 % platform fee per vendor, one pending earnings row per vendor of the order | not executed | `OrderViews.EarningsAsWritten` (with `OrderViews.CreatedOrderItems`) | `OrderViews.EarningsRows` (with `OrderViews.SplitEarnings`, `OrderViews.EarningsSplitAmounts`, `OrderViews.GrossSumsToTotal`, `OrderViews.RecordEarnings`, `OrderViews.OrderCreate`) |
| app/backend/apps/music/views.py:80-123 | only start ≥ size and end ≥ size are refused. A range with start after end passes to `f.read(end − start + 1)`. A count of 0 gives an empty 206. A count of -1 reads the rest of the file into a 206 with Content-Length -1. A count of -2 or less raises ValueError, which the handler at line 122 does not catch, so the reply is a 500. | header "bytes=5-3" on a ten-byte file: 206, Content-Length -1, body the five bytes from position 5; "bytes=5-2": 500 | refuse an empty range like the out-of-file ones (416 with "bytes */size") | not executed | `MusicViews.StreamAsWritten` (with `MusicViews.NegativeContentLength`, `MusicViews.ReversedRangeAsWritten`, `MusicViews.ReversedRangeRaises`) | `MusicViews.StreamResponse` (with `MusicViews.StreamAgreesOnOrderedRanges`) |
| app/backend/apps/orders/views.py:27, 113 | `Cart.objects.get(session_key=...)` does not skip soft-deleted carts. `session_cart.delete()` (lines 40, 133) is a soft delete, so the merged cart is found again, and its lines are merged once more on each later request with the same key. | a user whose cart already exists makes two requests with the same session key; the session cart's quantities are added twice | merge a session cart once: look up only live carts | not executed | `OrderViews.CartOfKey` (with `OrderViews.DeletedSessionCartFoundAgain`, `OrderViews.MergeSessionAsWritten`, `OrderViews.SessionCartMergedTwice`, `OrderViews.MergeLineTwice`) | `OrderViews.LiveCartOfKey` (used by `OrderViews.ResolveCart` and `OrderViews.MergeCartOf`) |
| app/backend/apps/users/serializers.py:44 | `User.objects.create_user(**validated_data)` passes only keyword fields. User sets `username = None` (users/models.py:29) but declares no manager, so `objects` is AbstractUser's UserManager, whose `create_user` takes `username` as a required positional argument. TypeError is raised before any row is written, and the reply is a 500. | any registration whose two passwords match (and pass validate_password) | create the CUSTOMER user with the submitted fields and the password set, through a manager keyed on email | not executed | `UserSerializers.RegistrationAsWritten` (with `UserSerializers.RegistrationNeverCreates`) | `UserSerializers.Register` (with `UserSerializers.RegistrationIntended`, `UserSerializers.NewUser`, `UserSerializers.NewUserIgnoresPasswords`) |

The correction in the second row follows the code's own 416 branch. Section 2.1
of RFC 7233 would have the server ignore a syntactically invalid byte-range-spec
such as "5-3" and send the whole file instead.
