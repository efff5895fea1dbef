# Restaurant ordering core, modelled in Dafny

This project models the core of a restaurant ordering system:

- **Guest orders.** A guest builds a cart on the public order form and submits it. The server action `createGuestOrder` validates the payload against the zod order schema and checks the requested menu items and modifier options against the catalogue. It prices every line under the item's tax rule, numbers the order and its invoice from per-restaurant series, and writes both records.
- **Staff actions.** Staff update an order's status (`updateOrderStatus`) and issue its invoice through the tax authority's service (`issueInvoiceForOrder`).
- **Kitchen screens.** The staff board and the kitchen stream keep a local list of orders and events.
- **Access.** Access is decided by the session's restaurant memberships and the role/permission table: `hasRestaurantPermission`, `assertRestaurantPermission`, and the `authorize`, `session` and `authorized` callbacks of the auth configuration.
- **Seeding.** The seed script writes that table, a restaurant and its admin.

How the code becomes Dafny:

- **Pure code becomes functions.** This covers the schemas, the permission helpers, the text sanitisers, the errors, and the pure helpers of the form. Each function is paired with lemmas about it.
- **The store is a class.** The store the actions read and write is the class `Db.Database`, whose fields are maps keyed by id. The two order actions and the invoice action are methods that take it and modify it. Each is proved equal to a function of the old tables (`Orders.PlanOrder`, `Orders.StatusUpdate`, `Billing.IssueSpec`), and the properties are proved about those functions.
- **Loops become methods.** The loops of `createGuestOrder` and of the seed script are methods with loop invariants. They are proved against back-recursive specification functions (`Pricing.PriceOrder` computes `Pricing.PriceOrderSpec`).
- **Component state becomes classes.** The React components' state lives in the classes `GuestOrderForm.OrderForm`, `OrdersBoard.Board` and `OrdersStream.EventList`. Their handlers are methods over those fields.
- **Outside calls are parameters.** The database lookup, password hashing and comparison, the e-mail test, the tax service, the network request of the form, and the `EventSource` JSON parser are function parameters. A random token or id is a plain value parameter.

## Model

| member | source | states |
|---|---|---|
| Errors.NewAppError | src/lib/errors.ts:1-11 | the error carries the given message, code (default `APP_ERROR`) and status (default 500) |
| Errors.BadRequest | src/lib/errors.ts:13-14 | code `BAD_REQUEST`, status 400, the given message |
| Errors.Unauthorized | src/lib/errors.ts:16-17 | code `UNAUTHORIZED`, status 401 |
| Errors.Forbidden | src/lib/errors.ts:19-20 | code `FORBIDDEN`, status 403 |
| Errors.NotFound | src/lib/errors.ts:22-23 | code `NOT_FOUND`, status 404 |
| Errors.ErrorDefaults | src/lib/errors.ts:1-23 | the default messages of each constructor; every bad request is a 4xx |
| Permissions.RolePermissions | src/lib/permissions.ts:22-40 | every permission a role grants is one of the seven known keys |
| Permissions.RoleTable | src/lib/permissions.ts:1-40 | admin holds every key; kitchen ⊆ cashier ⊆ admin; staff holds exactly `orders:view`; every role can view orders; the seven keys are distinct |
| Permissions.Includes | src/lib/permissions.ts:47 | `list.includes(x)`: true exactly when the value is in the list |
| Permissions.HasPermission | src/lib/permissions.ts:42-48 | false for a missing or empty list, otherwise exactly membership |
| Permissions.FindRestaurant | src/lib/permissions.ts:50-59 | the index of the first membership of the restaurant, or None exactly when there is none |
| Permissions.HasRestaurantPermission | src/lib/permissions.ts:50-59 | true exactly when the first membership for the restaurant lists the permission; false without memberships |
| Permissions.FirstEntryDecides | src/lib/permissions.ts:50-59 | memberships appended after one for the restaurant never change the answer |
| Permissions.OtherRestaurantsNeverGrant | src/lib/permissions.ts:50-59 | a permission no membership of this restaurant lists is never granted, whatever other restaurants grant |
| Authorization.AssertRestaurantPermission | src/lib/authorization.ts:6-24 | no user ⇒ Unauthorized; a user without the permission ⇒ Forbidden; passes exactly when the user holds it |
| Authorization.ThreeOutcomes | src/lib/authorization.ts:6-24 | the only outcomes are pass, the default Unauthorized and the default Forbidden |
| Auth.Authorized | src/lib/auth.ts:77-85 | outside /admin, /kitchen and /staff always allowed; inside, allowed exactly when the session has a user |
| Auth.StaffPrefixes | src/lib/auth.ts:77-85 | the login page and every /admin or /kitchen path need a user; public order pages never do |
| Auth.NormalizedEmail | src/lib/auth.ts:27 | the looked-up email has no capital letter and no white space at either end |
| Auth.Authorize | src/lib/auth.ts:26-42 | a user is returned only for a non-empty email and password |
| Auth.EmptyCredentialsNeverLookedUp | src/lib/auth.ts:27-30 | an empty email or password is refused, whatever the store and the hash check answer |
| Auth.LookupByNormalizedEmail | src/lib/auth.ts:27-34 | the answer depends on the store only through the lowercased, trimmed email |
| Auth.AuthorizeAccepts | src/lib/auth.ts:26-42 | sign-in succeeds exactly when both fields are non-empty, the user exists with a non-empty hash, and the password matches; it returns the user's id, email and name |
| Auth.Project | src/lib/auth.ts:61-73 | one access entry per membership, with its restaurant, role key, the role's permission keys and owner flag |
| Auth.LiveSession.Populate | src/lib/auth.ts:46-76 | a session without a user is left as it is; otherwise the user gets the id and the projected memberships |
| Auth.MembershipDecidesAccess | src/lib/auth.ts:46-76 | after the callback, access is granted exactly when the first membership for the restaurant has a role listing the permission |
| Auth.SeededRoleGrants | src/lib/auth.ts:61-73 | a membership in a seeded role grants exactly that role's permissions at that restaurant |
| Security.StripTags | src/lib/security.ts:1-4 | definition of `replace(TAG_REGEX, "")`; specified by Security.SanitizedHasNoTag and Security.UnmatchedOpenerSurvives |
| Security.CollapseSpaces | src/lib/security.ts:4 | definition of `replace(/\s+/g, " ")`; specified by Security.SanitizedIsWellSpaced |
| Security.SanitizeText | src/lib/security.ts:3-4 | definition of `sanitizeText`; specified by Security.SanitizedHasNoTag, Security.UnmatchedOpenerSurvives, Security.SanitizedIsWellSpaced and Security.SanitizeIdempotent |
| Security.SanitizedHasNoTag | src/lib/security.ts:1-4 | sanitized text never holds a `<` followed later by a `>` |
| Security.UnmatchedOpenerSurvives | src/lib/security.ts:1-4 | a `<` with no `>` after it is not removed |
| Security.SanitizedIsWellSpaced | src/lib/security.ts:3-4 | every white-space run is one plain space, with none at either end |
| Security.SanitizeIdempotent | src/lib/security.ts:3-4 | sanitizing sanitized text changes nothing |
| Security.KeepPhoneChars | src/lib/security.ts:8 | definition of `replace(/[^\d+]/g, "")`; specified by Security.KeepPhoneCharsExact and Security.KeepPhoneCharsAppend |
| Security.KeepPhoneCharsExact | src/lib/security.ts:8 | only digits and `+` remain, each as often as in the input |
| Security.KeepPhoneCharsAppend | src/lib/security.ts:8 | the kept characters keep their order |
| Security.NormalizePhone | src/lib/security.ts:6-10 | a missing or empty value gives null; otherwise the kept characters, or null when none remain |
| SchemaRules.LenRange | src/schemas/orders.ts:12-18 | a length check raises no issue exactly when the length lies in the range |
| SchemaRules.IntRange | src/schemas/orders.ts:34 | an integer check passes exactly for whole numbers in the range |
| SchemaRules.EachEmpty | src/schemas/orders.ts:30-46 | an array raises no issue exactly when none of its elements does |
| MenuSchema.CheckCategory | src/schemas/menu.ts:3-7 | accepted exactly for a non-empty restaurant id and a name of 2-80 characters (the description is at most 200) |
| MenuSchema.CheckMenuItem | src/schemas/menu.ts:9-15 | accepted exactly for a non-empty restaurant id, a name of 2-120 characters, a description of at most 400, price ≥ 0, and a category id that, when present, is non-empty |
| MenuSchema.ParseModifierGroup | src/schemas/menu.ts:17-22 | a rejection always carries at least one issue |
| MenuSchema.ModifierGroupAccepted | src/schemas/menu.ts:17-22 | accepted exactly for a non-empty restaurant id, a name of 2-80 characters and both bounds, missing ones read as 0, whole numbers in 0..10; the accepted bounds are those values |
| MenuSchema.MinAboveMaxAccepted | src/schemas/menu.ts:20-21 | a minimum above the maximum is accepted: the schema does not relate them |
| MenuSchema.ModifierGroupDefaults | src/schemas/menu.ts:20-21 | missing bounds default to 0 and 0 |
| MenuSchema.CheckModifierOption | src/schemas/menu.ts:24-28 | accepted exactly for a non-empty group id, a name of 2-80 characters and price ≥ 0 |
| OrderSchema.FieldIssues | src/schemas/orders.ts:3-47 | definition of the field checks; specified by OrderSchema.ParseAcceptsExactlyAdmissible, OrderSchema.LongLineNotesRejected and OrderSchema.EmptyOrderRejected |
| OrderSchema.RefineIssues | src/schemas/orders.ts:48-64 | definition of the `superRefine` callback; specified by OrderSchema.ParseAcceptsExactlyAdmissible, OrderSchema.DineInNeedsTable and OrderSchema.DeliveryNeedsAddress |
| OrderSchema.ToOrder | src/schemas/orders.ts:3-47 | definition of the parsed value with its defaults; specified by OrderSchema.ItemConverted, OrderSchema.AcceptedItems and OrderSchema.AcceptedFields |
| OrderSchema.ParseOrder | src/schemas/orders.ts:3-64 | a rejection carries at least one issue; an accepted order keeps the restaurant and one item per raw item |
| OrderSchema.ParseAcceptsExactlyAdmissible | src/schemas/orders.ts:3-64 | the payload is accepted exactly when every field bound and both refinements hold |
| OrderSchema.DineInNeedsTable | src/schemas/orders.ts:49-55 | a dine-in order without a table number is rejected, with the issue on `tableId` |
| OrderSchema.DeliveryNeedsAddress | src/schemas/orders.ts:57-63 | a delivery order without an address is rejected, with the issue on `deliveryAddress` |
| OrderSchema.ItemConverted | src/schemas/orders.ts:30-46 | an admissible item keeps its id, a whole positive quantity, its notes and its modifiers, whose quantity defaults to 1 |
| OrderSchema.AcceptedItems | src/schemas/orders.ts:30-46 | every accepted item is the conversion of its raw item |
| OrderSchema.AcceptedFields | src/schemas/orders.ts:3-63 | an accepted order keeps its type, table and notes; a missing channel becomes `ONLINE` and a missing country `AR`; dine-in has a table, delivery an address; customer and notes lie within their bounds |
| OrderSchema.LongLineNotesRejected | src/schemas/orders.ts:35 | line notes over 300 characters reject the order |
| OrderSchema.EmptyOrderRejected | src/schemas/orders.ts:46 | an order without items is rejected with a too-small issue on `items` |
| Pricing.ComputeTotals | src/actions/orders.ts:73-99 | total = subtotal + tax; no tax without a positive rate; an inclusive rate takes the tax out of the gross amount, any other adds it on top |
| Pricing.TaxWithinTotal | src/actions/orders.ts:73-99 | with a positive rate, non-negative price and quantity, 0 ≤ tax ≤ total |
| Pricing.CountCheckPasses | src/actions/orders.ts:120-137 | the found-items count equals the requested count exactly when the ids are distinct and each is an active item of the restaurant |
| Pricing.GroupsOf | src/actions/orders.ts:176-182 | definition of an item's allowed groups; specified by Pricing.GroupsOfLinked and Pricing.BuildAllowedGroups |
| Pricing.GroupsOfLinked | src/actions/orders.ts:176-182 | an item's allowed groups are its linked groups, each once |
| Pricing.BuildAllowedGroups | src/actions/orders.ts:176-182 | the map built by the loop gives every item exactly its linked groups |
| Pricing.ResolveModifiers | src/actions/orders.ts:198-213 | succeeds exactly when every modifier names a known option of an allowed group, and pairs each with its option row |
| Pricing.FirstBadModifierDecides | src/actions/orders.ts:206-213 | the first unresolvable modifier decides the message: invalid option, or not allowed for the item |
| Pricing.CountByGroup | src/actions/orders.ts:217-223 | the loop's counts give every group the summed quantity of its options |
| Pricing.GroupsCheckPasses | src/actions/orders.ts:225-236 | the group checks pass exactly when every loaded group's count lies within its non-zero minimum and maximum |
| Pricing.CheckRequiredGroups | src/actions/orders.ts:225-236 | the loop gives the same outcome as the group checks over the resolved modifiers |
| Pricing.PriceLinesFailureStays | src/actions/orders.ts:198-271 | once a prefix of the lines fails, the order fails with that error |
| Pricing.RepeatedItemRejected | src/actions/orders.ts:120-137 | an order listing the same menu item on two lines is rejected with the invalid-items message |
| Pricing.PriceLine | src/actions/orders.ts:198-253 | definition of one line's pricing; specified by Pricing.PriceLineErrors, Pricing.PriceLineAccepted and Pricing.PriceLineStep |
| Pricing.PriceLineErrors | src/actions/orders.ts:198-236 | an eligible item's line fails only with a modifier or group message |
| Pricing.CountCheckDecides | src/actions/orders.ts:120-137 | the count check alone decides "Some menu items are invalid or inactive"; "Menu item not found" never surfaces |
| Pricing.PriceLinesEach | src/actions/orders.ts:198-271 | an accepted order has one priced line per requested line, each that line's pricing |
| Pricing.FailingLineRejects | src/actions/orders.ts:198-271 | one failing line rejects the order |
| Pricing.ResolvedSums | src/actions/orders.ts:217-241 | group counts and the modifier total are the requested quantities and prices, read from the option rows |
| Pricing.PriceLineAccepted | src/actions/orders.ts:198-253 | an accepted line has an eligible item; each requested option is known and allowed; every group count is within bounds; unit price = item price + Σ option price × quantity |
| Pricing.SumTotalsOfLines | src/actions/orders.ts:251-253 | the order totals are the sums of the line totals and taxes, and total = subtotal + tax |
| Pricing.PriceOrderSpec | src/actions/orders.ts:120-271 | definition of the order's validation and pricing; specified by Pricing.AcceptedOrder, Pricing.RepeatedItemRejected, Pricing.CountCheckDecides and Pricing.FailingLineRejects, and computed by Pricing.PriceOrder |
| Pricing.AcceptedOrder | src/actions/orders.ts:120-271 | an accepted order has distinct eligible items, one line per request, each line's total = subtotal + tax, recorded on the line |
| Pricing.PriceLineStep | src/actions/orders.ts:198-253 | one pass of the line loop computes the line's specification |
| Pricing.PriceOrder | src/actions/orders.ts:120-271 | the validation and pricing loops compute the order's specification |
| Db.Upsert | src/actions/orders.ts:276-290 | a first upsert creates the counter at 1 with the prefix; later ones add 1 and keep the prefix; other restaurants are untouched |
| Db.SeriesCountsFromOne | src/actions/orders.ts:276-290 | the n-th upsert of a new counter holds n |
| Db.Database.constructor | src/actions/orders.ts:276-290 | a new store holds the given restaurants and catalogue and no orders, invoices or counters |
| Orders.NewOrder | src/actions/orders.ts:339-363 | definition of the order row; specified by Orders.WriteOrder and Orders.PlacedRecordsAgree |
| Orders.NewInvoice | src/actions/orders.ts:381-405 | definition of the invoice row; specified by Orders.WriteOrder and Orders.PlacedRecordsAgree |
| Orders.PlanOrder | src/actions/orders.ts:101-271 | definition of what `createGuestOrder` decides before writing; specified by Orders.CreateGuestOrder and Orders.PlacedRecordsAgree |
| Orders.InvoiceLines | src/actions/orders.ts:381-405 | one invoice line per order line, with its amounts; only a positive tax gets a label |
| Orders.CreateGuestOrder | src/actions/orders.ts:101-435 | a failure leaves the store unchanged and returns the plan's error; a success adds exactly the new order and its invoice under fresh series numbers |
| Orders.WriteOrder | src/actions/orders.ts:276-405 | both counters move on, and the order and invoice rows are added with the numbers they show |
| Orders.PlacedRecordsAgree | src/actions/orders.ts:339-405 | the order and invoice of a placed order share restaurant, currency and totals; their lines match; total = subtotal + tax |
| Orders.ConsecutiveNumbers | src/actions/orders.ts:276-290 | two orders placed one after the other get consecutive order and invoice numbers |
| Orders.StatusUpdate | src/actions/orders.ts:439-478 | a missing order is not found; a success gives that order the new status and a history entry for it, keeps every other field of it, and keeps every other order |
| Orders.NoTransitionCheck | src/actions/orders.ts:439-478 | the outcome does not depend on the current status: any transition, even back from Completed, is accepted |
| Orders.UpdateOrderStatus | src/actions/orders.ts:439-478 | the orders table becomes the function's result on success and is unchanged on error |
| Billing.PointOfSale | src/actions/billing.ts:48-51 | definition of the configured point of sale; specified by Billing.NoPointOfSaleFails and Billing.IssuedRecordsService |
| Billing.DocNumber | src/actions/billing.ts:63 | definition of `customerTaxId ?? "0"`; specified by Billing.DocumentSent |
| Billing.RequestFor | src/actions/billing.ts:53-64 | definition of the request sent to the tax service; specified by Billing.IssuedRecordsService and Billing.DocumentSent |
| Billing.MapDocType | src/actions/billing.ts:17-21 | 80 exactly for a non-empty tax id; 96 exactly for a Monotributo customer without one; otherwise 99 |
| Billing.IssueSpec | src/actions/billing.ts:23-78 | definition of the issuance as a function of the tables; specified by Billing.MissingInvoiceBeforePermission, Billing.AlreadyIssuedChangesNothing, Billing.NoPointOfSaleFails, Billing.IssuedRecordsService and Billing.IssuedAtMostOnce, and computed by Billing.IssueInvoiceForOrder |
| Billing.IssueInvoiceForOrder | src/actions/billing.ts:23-78 | the reply and new invoices are those of the issuance function; an error changes nothing; no other table changes |
| Billing.MissingInvoiceBeforePermission | src/actions/billing.ts:34-36 | a missing invoice is reported before, and whatever, the session |
| Billing.AlreadyIssuedChangesNothing | src/actions/billing.ts:44-46 | a non-draft invoice is answered "Invoice already issued" and nothing changes |
| Billing.NoPointOfSaleFails | src/actions/billing.ts:48-51 | a draft without a configured point of sale fails |
| Billing.IssuedRecordsService | src/actions/billing.ts:53-74 | a success marks that draft ISSUED with the service's code, due date and receipt number, sent for the invoice's own totals |
| Billing.IssuedAtMostOnce | src/actions/billing.ts:44-74 | right after a success, a second call is answered "Invoice already issued" and changes nothing |
| Billing.DocumentSent | src/actions/billing.ts:59-63 | an absent tax id sends "0"; an empty one is sent as it is, with a no-id document type |
| Seed.SeedTablesAgree | prisma/seed.js:6-42 | the seeded permissions and roles are the application's tables, in order |
| Seed.Slug | prisma/seed.js:89-92 | definition of `slugify`; specified by Seed.SlugShape and Seed.DefaultSlug |
| Seed.SlugShape | prisma/seed.js:89-92 | the slug holds only a-z, 0-9 and single dashes, with no dash at either end |
| Seed.DefaultSlug | prisma/seed.js:83-92 | the default restaurant name gives "demo-restaurant" |
| Seed.SeededGrantsAreTheTable | prisma/seed.js:53-79 | a role gets a permission link exactly when the role table grants it |
| Seed.UpsertPermissions | prisma/seed.js:45-51 | the permission loop leaves every seeded key with its last description |
| Seed.LinkRole | prisma/seed.js:60-78 | the inner loop adds exactly the links of the role's found permissions |
| Seed.UpsertRoles | prisma/seed.js:53-79 | the role loop adds every role's name and exactly its links |
| Seed.SeedDb.constructor | prisma/seed.js:44 | the store starts empty |
| Seed.SeedDb.SeedTables | prisma/seed.js:45-79 | the two loops upsert every listed permission with its description and every listed role with its name and exactly its links; no other table changes |
| Seed.SeedDb.RunSeed | prisma/seed.js:44-131 | the tables are seeded; without both admin variables nothing else is written; otherwise the restaurant, the admin user and the owner membership are upserted |
| Seed.SeedDb.SeedAdmin | prisma/seed.js:81-130 | restaurant by slug, admin by email, and the membership only when the admin role exists |
| GuestOrderForm.ItemsUnderMembership | src/ui/public/GuestOrderForm.tsx:65-78 | an item is listed under a key exactly when its category (or "uncategorized") is that key |
| GuestOrderForm.GroupedItems | src/ui/public/GuestOrderForm.tsx:65-78 | the keys are the category ids plus the items' keys, and each lists exactly its items in order |
| GuestOrderForm.ValidateSelection | src/ui/public/GuestOrderForm.tsx:91-102 | definition of `validateSelection`; specified by GuestOrderForm.GroupsValid and GuestOrderForm.LineCountIsSelection |
| GuestOrderForm.GroupsValid | src/ui/public/GuestOrderForm.tsx:91-102 | valid exactly when every group's selection count lies within its non-zero minimum and maximum |
| GuestOrderForm.GetSelectedModifiers | src/ui/public/GuestOrderForm.tsx:104-114 | definition of `getSelectedModifiers`; specified by GuestOrderForm.SelectedModifiersMembership, GuestOrderForm.ClickOrderIrrelevant and GuestOrderForm.SelectionCount |
| GuestOrderForm.PickOptions | src/ui/public/GuestOrderForm.tsx:104-114 | one modifier per selected option at most |
| GuestOrderForm.ClickOrderIrrelevant | src/ui/public/GuestOrderForm.tsx:104-114 | the modifiers depend only on which options are selected, not the click order |
| GuestOrderForm.SelectedModifiersMembership | src/ui/public/GuestOrderForm.tsx:104-114 | a modifier is sent exactly for an option of a group that the selection for that group names |
| GuestOrderForm.AllCheckedGivesMenuOrder | src/ui/public/GuestOrderForm.tsx:104-114 | selecting every option gives all options in menu order |
| GuestOrderForm.PickOptionsCount | src/ui/public/GuestOrderForm.tsx:104-114 | a checked list without repeats, drawn from the group's options (distinct ids), picks exactly `selected.length` modifiers |
| GuestOrderForm.Total | src/ui/public/GuestOrderForm.tsx:80-89 | definition of the cart total; specified by GuestOrderForm.TotalAppend, GuestOrderForm.AddLineTotal, GuestOrderForm.IncrementTotal and GuestOrderForm.DecrementTotal |
| GuestOrderForm.LineTotalStep | src/ui/public/GuestOrderForm.tsx:80-89 | one unit more or less changes a line's total by its unit price |
| GuestOrderForm.TotalAppend | src/ui/public/GuestOrderForm.tsx:80-89 | the cart total is additive over concatenation |
| GuestOrderForm.AddLine | src/ui/public/GuestOrderForm.tsx:128-152 | definition of the `addToCart` updater; specified by GuestOrderForm.AddLineEffect, GuestOrderForm.AddLineTotal and GuestOrderForm.TwoLinesForOneItem |
| GuestOrderForm.AddLineEffect | src/ui/public/GuestOrderForm.tsx:128-152 | adding keeps the cart free of duplicate lines and positive; a matching line gains one unit, otherwise a new line is appended |
| GuestOrderForm.AddLineTotal | src/ui/public/GuestOrderForm.tsx:80-152 | adding raises the total by the matching line's unit price, or by the new line's price |
| GuestOrderForm.TwoLinesForOneItem | src/ui/public/GuestOrderForm.tsx:128-152 | one item with different options makes two lines |
| GuestOrderForm.IncrementAt | src/ui/public/GuestOrderForm.tsx:155-161 | definition of the `incrementCartItem` updater; specified by GuestOrderForm.IncrementEffect and GuestOrderForm.IncrementTotal |
| GuestOrderForm.IncrementEffect | src/ui/public/GuestOrderForm.tsx:155-161 | that line gains one unit, the rest is kept; out of range nothing changes |
| GuestOrderForm.IncrementTotal | src/ui/public/GuestOrderForm.tsx:80-161 | the total rises by that line's unit price |
| GuestOrderForm.DecrementAt | src/ui/public/GuestOrderForm.tsx:163-171 | definition of the `decrementCartItem` updater; specified by GuestOrderForm.DecrementEffect, GuestOrderForm.DecrementKeepsWellFormed and GuestOrderForm.DecrementTotal |
| GuestOrderForm.KeepPositiveKeeps | src/ui/public/GuestOrderForm.tsx:163-171 | the filter keeps exactly the lines of positive quantity, so the filtered cart has only positive quantities |
| GuestOrderForm.DecrementEffect | src/ui/public/GuestOrderForm.tsx:163-171 | a line above 1 loses a unit; a line at 1 is removed; out of range nothing changes |
| GuestOrderForm.DecrementKeepsWellFormed | src/ui/public/GuestOrderForm.tsx:163-171 | decrementing keeps the cart well formed |
| GuestOrderForm.DecrementTotal | src/ui/public/GuestOrderForm.tsx:80-171 | the total falls by that line's unit price |
| GuestOrderForm.Toggle | src/ui/public/GuestOrderForm.tsx:304-326 | definition of the checkbox updater; specified by GuestOrderForm.ToggleEffect, GuestOrderForm.ToggleKeepsWithinMax and GuestOrderForm.ToggleKeepsClean |
| GuestOrderForm.WithoutEffect | src/ui/public/GuestOrderForm.tsx:308-326 | unchecking removes every copy of that option and keeps the rest |
| GuestOrderForm.ToggleEffect | src/ui/public/GuestOrderForm.tsx:308-326 | checking appends the option to that group's selection; unchecking removes it; every other group and item keeps its selection |
| GuestOrderForm.ToggleKeepsWithinMax | src/ui/public/GuestOrderForm.tsx:268-326 | with the full-group guard, a check never takes a group over its maximum |
| GuestOrderForm.WithoutKeepsDistinct | src/ui/public/GuestOrderForm.tsx:317-319 | unchecking keeps a list free of repeats |
| GuestOrderForm.ToggleKeepsClean | src/ui/public/GuestOrderForm.tsx:304-326 | a checkbox click (checking an unchecked option, unchecking a checked one) keeps the group's list free of repeats and within its options |
| GuestOrderForm.IsCheckoutDisabled | src/ui/public/GuestOrderForm.tsx:213-214 | checkout is enabled exactly when nothing is pending, the cart has a line, and the name is not blank |
| GuestOrderForm.CheckoutSendsCustomer | src/ui/public/GuestOrderForm.tsx:177-196 | when checkout is enabled, the payload carries the customer with the typed name and one item per cart line, at least one |
| GuestOrderForm.Payload | src/ui/public/GuestOrderForm.tsx:177-196 | definition of the submitted payload; specified by GuestOrderForm.CheckoutSendsCustomer, GuestOrderForm.SubmittedLines, GuestOrderForm.SubmittedCounts and GuestOrderForm.FormCountIsServerCount |
| GuestOrderForm.QuantityOneCounts | src/ui/public/GuestOrderForm.tsx:188-195 | the form sends each option with quantity 1, so the server counts selections |
| GuestOrderForm.SentLineConverted | src/ui/public/GuestOrderForm.tsx:188-195 | a sent line passes the schema as that line's item with quantity-1 modifiers |
| GuestOrderForm.SubmittedLines | src/ui/public/GuestOrderForm.tsx:177-196 | an accepted submission's items are the cart's lines, in order |
| GuestOrderForm.SubmittedCounts | src/ui/public/GuestOrderForm.tsx:188-195 | the server's per-group count of an accepted line is the number of options the guest checked in it |
| GuestOrderForm.SelectionCount | src/ui/public/GuestOrderForm.tsx:91-114 | with options filed under their groups, the modifiers taken from a clean selection count `selected.length` in each group |
| GuestOrderForm.LineCountIsSelection | src/actions/orders.ts:217-236 | one quantity-1 modifier per picked option gives the server's per-group sum equal to the form's `selected.length`, inside the group's bounds when `validateSelection` accepts |
| GuestOrderForm.FormCountIsServerCount | src/actions/orders.ts:217-236 | the server's quantity sum for each group of a submitted line equals the form's `selected.length`, so a selection `validateSelection` accepts passes the server's bounds |
| GuestOrderForm.RepeatedCartItemRejected | src/ui/public/GuestOrderForm.tsx:128-152 | a cart holding one item twice (different options) is rejected by the server's count check |
| GuestOrderForm.OrderForm.constructor | src/ui/public/GuestOrderForm.tsx:52-63 | the form starts with an empty cart, fields and selections, and no status |
| GuestOrderForm.OrderForm.AddToCart | src/ui/public/GuestOrderForm.tsx:116-153 | an invalid selection leaves the cart and shows the selection error; a valid one adds the line |
| GuestOrderForm.OrderForm.IncrementCartItem | src/ui/public/GuestOrderForm.tsx:155-161 | the cart becomes the incremented cart |
| GuestOrderForm.OrderForm.DecrementCartItem | src/ui/public/GuestOrderForm.tsx:163-171 | the cart becomes the decremented cart |
| GuestOrderForm.OrderForm.ToggleModifier | src/ui/public/GuestOrderForm.tsx:308-326 | the selections become the toggled selections |
| GuestOrderForm.OrderForm.BeginSubmit | src/ui/public/GuestOrderForm.tsx:173-196 | the banner is cleared, the submit is pending, and the payload is built from the cart, customer and notes of that moment; nothing else changes |
| GuestOrderForm.OrderForm.CompleteSubmit | src/ui/public/GuestOrderForm.tsx:197-211 | the submit is no longer pending; a success shows the order and clears the cart, selections and notes as they stand at that point, including edits made during the wait; a failure sets the error and keeps them |
| GuestOrderForm.OrderForm.SubmitOrder | src/ui/public/GuestOrderForm.tsx:173-211 | success shows the number and token and clears cart, selections and notes; failure shows the submit error and keeps them |
| OrdersBoard.StatusFlowOffers | src/ui/admin/OrdersBoard.tsx:30-36 | five distinct statuses are offered; Cancelled is not one |
| OrdersBoard.WithStatus | src/ui/admin/OrdersBoard.tsx:45-49 | definition of the board's updater; specified by OrdersBoard.WithStatusEffect, OrdersBoard.LastChoiceWins and OrdersBoard.DistinctOrdersCommute |
| OrdersBoard.WithStatusEffect | src/ui/admin/OrdersBoard.tsx:42-51 | only rows with that id change, and only their status |
| OrdersBoard.LastChoiceWins | src/ui/admin/OrdersBoard.tsx:42-51 | setting a status twice leaves the last one |
| OrdersBoard.DistinctOrdersCommute | src/ui/admin/OrdersBoard.tsx:42-51 | updates of two different orders commute |
| OrdersBoard.AcceptedChangeMirrors | src/ui/admin/OrdersBoard.tsx:42-51 | after an accepted change, the board still shows the stored status of every order it lists |
| OrdersBoard.Board.constructor | src/ui/admin/OrdersBoard.tsx:39 | the board starts with the given rows |
| OrdersBoard.Board.HandleStatus | src/ui/admin/OrdersBoard.tsx:42-51 | the server update succeeds exactly when the action does; then the orders table and the board change; on error neither the store nor the board changes; no other table ever changes |
| OrdersStream.Prepend | src/ui/kitchen/OrdersStream.tsx:29 | definition of `[parsed, ...prev].slice(0, 20)`; specified by OrdersStream.PrependShape and OrdersStream.ReceivedIsNewestFirst |
| OrdersStream.PrependShape | src/ui/kitchen/OrdersStream.tsx:26-33 | the newest event comes first; at most 20 are kept; the rest are the earlier ones in order |
| OrdersStream.Reversed | src/ui/kitchen/OrdersStream.tsx:26-33 | the reversal of the events, element by element |
| OrdersStream.ReceivedIsNewestFirst | src/ui/kitchen/OrdersStream.tsx:26-37 | after any run of events the list is their 20 newest, newest first |
| OrdersStream.EventList.constructor | src/ui/kitchen/OrdersStream.tsx:16 | the list starts empty |
| OrdersStream.EventList.HandleEvent | src/ui/kitchen/OrdersStream.tsx:26-37 | a listened event that parses is put first, trimmed to 20; anything else changes nothing |
| JsText.TrimEmptyIffAllSpace | src/ui/public/GuestOrderForm.tsx:213-214 | a trimmed string is empty exactly when it is all white space |
| JsText.ToLower | src/lib/auth.ts:27 | the lowercased string has the same length and no capital letter; each capital becomes its small letter and every other character is kept |

## Left out

- The database, transactions and Prisma queries are modelled as maps in `Db.Database` and `Seed.SeedDb`. The transaction's rollback is modelled as "on error nothing changes". Concurrency between transactions is not modelled.
- The kitchen ticket, the upserts of the customer and the address, the realtime publish and the e-mail notification of `createGuestOrder` are not modelled. The confirmation e-mail is awaited inside the transaction, so a failure to send it rolls back the order and invoice too; the model does not capture that failure.
- The `ORDER_UPDATED` publish of `updateOrderStatus` is not modelled; it writes nothing to the store.
- The `revalidatePath` call of `issueInvoiceForOrder` is not modelled; it only refreshes the cached admin page.
- GuestOrderForm.OrderForm.SubmitOrder: models a submit with no other handler run during the wait. While the server answers, only the checkout button is disabled; the add, +, − and checkbox handlers and the notes field stay live. `BeginSubmit` and `CompleteSubmit` model the two halves, and a success clears whatever was added in between, which was never sent.
- Orders.InvoiceLines: builds the invoice lines from the priced lines in request order; the code builds them from the items the order create returns, whose order the store does not guarantee.
- `randomUUID` and the store's generated ids are value parameters of the methods.
- The password hash (`bcrypt.hash`, `bcrypt.compare`), the user lookup, zod's e-mail test and the tax service (`issueAfipInvoice`) are function parameters.
- NextAuth's own machinery around the callbacks is not modelled.
- The form's network request and the `EventSource` JSON parse are function parameters. The shape check that `JSON.parse` lacks is part of that parameter.
- The transport of the event stream is not modelled, and neither is the server route behind it.
- The board's `isPending` flag, its buttons' rendering and the page layouts are not modelled.
- Amounts are exact `real` numbers. Floating-point rounding, `Number(price)` and the `toFixed(2)` formatting of totals and messages are not modelled. The success message of the form is its order number and token (`Received`).
- Comparing modifier lists with `JSON.stringify` is modelled as equality of the lists.
- Strings are sequences of code points, so the schemas' length bounds count code points, not UTF-16 units.
- `JsText.ToLower`: maps only the ASCII letters, because Unicode case mapping is out of scope.
- Raw payloads are type-correct records. A field of the wrong JSON type is not modelled, so enum values are the only input that aborts zod before the refinements.
- An order's tax-condition and tax-id columns take store defaults that are not part of this model. Created orders carry a final-consumer condition and no tax id.
- Pricing.ComputeTotals: requires a non-negative tax rate. The code never validates rates, and the store keeps them non-negative as an invariant.
- `GuestOrderForm.GroupedItems`: states keys and contents but not the insertion order of the `Map`'s keys; the page reads the map only through `get(category.id)`, so that order cannot be observed.
- Seed.SlugShape: the second slug replacement is modelled for strings without "--", which is all the first replacement produces.
- The seed's restaurant settings and series rows, created empty, are not modelled. The seed's `main` is the method `RunSeed`. Its error logging and disconnect are left out.
- `OrdersBoard.Board.HandleStatus` returns the action's error rather than throwing it. The board's state is unchanged in that case, as in the code.
- The menu actions, uploads, reports, tracking pages and other source files outside the ordering, billing, access and seed core are not part of this model.
