# VMAS property marketplace: a Dafny model of its rules

VMAS is a property marketplace made of a Django REST backend and a React
client. Agencies and agents list properties for sale or rent. Customers
favourite listings and subscribe to services, and they pay through the
Paynow gateway, which issues receipts. This project models the rules under
that glue and proves what they guarantee:

- the user manager's checks and the save-time normalisation of accounts;
- the validation rules of listings, images, videos and subscriptions;
- the payment record, its three-attempt initiation loop and its receipt;
- the payment serializers;
- the object-level permission classes;
- on the client:
  - the registration page's password and form rules;
  - the token store and error mapping of the authentication client;
  - the retrying payment client and its integrations cache;
  - the payment context's state and its status polling.

There is one module per source file, plus `Text`, which holds string and
JavaScript-value helpers.

| file | module | source |
|---|---|---|
| text.dfy | `Text` | helpers: `Option`/`Result`, ASCII `lower`/`strip`, JavaScript truthiness, `join` |
| accounts.dfy | `Accounts` | backend/core/models.py |
| listings.dfy | `Listings` | backend/properties/models.py |
| payment_models.dfy | `PaymentModels` | backend/payments/models.py |
| payment_serializers.dfy | `PaymentSerializers` | backend/payments/serializers.py |
| receipts.dfy | `Receipts` | backend/payments/services.py |
| permissions.dfy | `Permissions` | backend/core/permissions.py |
| register_page.dfy | `RegisterPage` | frontend/src/pages/Register.jsx |
| auth_api.dfy | `AuthApi` | frontend/src/api/auth.js |
| payment_api.dfy | `PaymentApi` | frontend/src/api/payment.js |
| payment_context.dfy | `PaymentContext` | frontend/src/context/PaymentContext.jsx |

Code that updates an object in place is modelled as a class with
`modifies` clauses:

- `User.save`, `User.clean` and `update_rating`, and `Agency.clean`;
- the payment initiation loop;
- the receipt table;
- `localStorage` and the client's default `Authorization` header;
- the `sessionStorage` cache;
- the payment context's React state.

Each method is proved against a specification function or against the
new state. Pure checks are functions that return the validation message
they would raise, or `None`. Network calls, the Paynow SDK and timers are
replaced by scripts: `replies(k)` is the reply to the k-th request of a
call, `gateway(k)` the outcome of the k-th attempt, `saveFails(k)` the database
error its `save()` raises, if any, `results(k)` what the
k-th poll gets. Retrying functions return the delays they would wait. The
clock is a parameter.

## Model

| member | source | states |
|---|---|---|
| Accounts.MissingField | backend/core/models.py:16-21 | the e-mail is checked first, then the first name, then the last name; each message appears exactly when its field is the first one missing |
| Accounts.CreateUser | backend/core/models.py:15-40 | as written: a missing field gives its message; a user is created exactly when every check passes and a password was given whose encoded form is a valid password field, so a call without a password always fails; a created user has the encoded password, the lower-cased and stripped e-mail, stripped names, its role (customer by default) and `is_staff` derived from it |
| Accounts.RoleOf | backend/core/models.py:247-251 | the role given, or the field default "customer" |
| Accounts.ChecksPass | backend/core/models.py:15-38 | the presence checks, the e-mail validator, the password validators when a password is given, `clean_fields` on the stored profile and the agency rule |
| Accounts.SaveNewUser | backend/core/models.py:26-39 | builds the instance with the given password field, `full_clean`s it and saves it exactly when the profile and password fields are clean and the agency rule holds; a saved user holds the normalised values |
| Accounts.BuildUser | backend/core/models.py:15-40 | the checks in the source's order; a user exactly when all pass and the stored password field is clean, with the normalised e-mail and names, the stored password and the role |
| Accounts.StoredPassword | backend/core/models.py:33-36 | the encoded password when one is given; otherwise the blank default, which `clean_fields` refuses |
| Accounts.UnusablePassword | backend/core/models.py:33-38 | the unusable password Django's own manager stores is a valid password field |
| Accounts.CreateUserWithUnusablePassword | backend/core/models.py:15-40 | corrected: without a password the user gets an unusable one and is created exactly when every other check passes |
| Accounts.ProfileClean | backend/core/models.py:150-152 | `clean_fields` on the profile: e-mail and names not blank and at most 255 characters, a declared role, an agency role that is blank or a declared choice |
| Accounts.AgencyRoleClean | backend/core/models.py:218-228 | a blank agency role (None or "") is not validated; any other must be agent, manager, admin or owner |
| Accounts.PasswordClean | backend/core/models.py:33-38 | the password field is not blank and at most 128 characters |
| Accounts.CreateSuperuser | backend/core/models.py:42-46 | role defaults to admin, so the user is staff; superuser unless the caller passed `is_superuser=False` |
| Accounts.CreateAgent | backend/core/models.py:48-51 | role defaults to agent, a staff role |
| Accounts.CreateCustomer | backend/core/models.py:53-55 | role defaults to customer, never staff |
| Accounts.CreateAgencyAdmin | backend/core/models.py:57-60 | role defaults to agency_admin, a staff role |
| Accounts.WithDefaults | backend/core/models.py:43-45 | `setdefault` fills only the role, staff and superuser arguments the caller left out; the agency, agency role, phone, verification flags and service areas pass through unchanged |
| Accounts.StaffFor | backend/core/models.py:240-246 | staff exactly for the declared roles other than customer |
| Accounts.User.constructor | backend/core/models.py:26-30 | `self.model(...)` keeps the given e-mail and names; role defaults to customer; staff and superuser only when passed true; a blank password field; no timestamps, no rating, no reviews |
| Accounts.User.Save | backend/core/models.py:289-297 | stores the normalised e-mail and stripped names, sets `is_staff` from the role whatever the caller set, and changes nothing else |
| Accounts.NormalEmail | backend/core/models.py:290-292 | the stored e-mail has no upper-case letter and no surrounding white space |
| Accounts.NormalEmailIsSlice | backend/core/models.py:290-292 | the stored e-mail is the lower-cased input with white space, and only white space, cut off on either side |
| Accounts.NormalEmailIdempotent | backend/core/models.py:290-292 | normalising a normalised e-mail changes nothing |
| Accounts.LowerTwice | backend/core/models.py:24-29 | lower-casing in `create_user` before `save` gives the same stored e-mail as `save` alone |
| Accounts.AgencyRule | backend/core/models.py:279-280 | a user with an agency passes only with role agent, agency_admin or agency_staff |
| Accounts.AgencyMembersAreStaff | backend/core/models.py:279-280 | every role allowed an agency is a staff role |
| Accounts.User.Clean | backend/core/models.py:278-287 | the agency rule's message, with nothing written on rejection; otherwise each missing `*_verified_at` whose flag is set becomes `now`, and every other field is kept |
| Accounts.User.FullClean | backend/core/models.py:36-38 | accepted exactly when the profile fields and the password field are clean and the agency rule passes; the timestamps are stamped whenever the agency rule passes and kept otherwise |
| Accounts.Stamp | backend/core/models.py:282-287 | an existing timestamp is kept; a missing one is filled in with `now` exactly when its flag is set |
| Accounts.StampStable | backend/core/models.py:282-287 | a second `clean` never moves a timestamp set by the first |
| Accounts.Agency.constructor | backend/core/models.py:109-115 | an agency holds its verified flag, its `verified_at` and its service areas as given |
| Accounts.Agency.Clean | backend/core/models.py:135-138 | a verified agency without `verified_at` gets `now`; the other fields are kept |
| Accounts.NewRating | backend/core/models.py:327-331 | with no rating (None or 0) the new review becomes the rating |
| Accounts.User.UpdateRating | backend/core/models.py:327-335 | the rating becomes the new mean and `reviews_count` grows by exactly one; the save re-normalises e-mail and names and re-derives `is_staff`; nothing else changes |
| Accounts.NewRatingBetween | backend/core/models.py:332-333 | the new rating lies between the old rating and the new review |
| Accounts.NewRatingTotal | backend/core/models.py:332-333 | after the first review, the new rating times the new count is the old total plus the review |
| Accounts.DivBounds | backend/core/models.py:332-333 | dividing bounds by a positive count keeps their order (used for the rating bounds) |
| Accounts.NewRatingIsMean | backend/core/models.py:327-335 | folding reviews one at a time keeps the rating equal to the mean of all reviews |
| Accounts.FullNameOf | backend/core/models.py:299-301 | for stripped, non-empty names the full name is "first last" |
| Accounts.User.FullName | backend/core/models.py:299-301 | the `full_name` property is "first last" for stripped, non-empty names |
| Accounts.User.IsIndependentAgent | backend/core/models.py:311-313 | an agent without an agency |
| Accounts.IndependentAgentIsValid | backend/core/models.py:311-313 | an agent without an agency passes the agency rule and is staff |
| Accounts.Dedup | backend/core/models.py:321-325 | the same elements as the input, each once |
| Accounts.User.ServiceAreas | backend/core/models.py:321-325 | the user's own areas without an agency; with one, the user's and the agency's areas together, each once |
| Accounts.FavoriteClean | backend/core/models.py:438-442 | a favourite passes exactly when it names a property, an agent or a search, and not both a property and an agent |
| Listings.PropertyClean | backend/properties/models.py:98-103 | (rent, sold) and (sale, rented) are refused with their messages; every other pair passes, any status with listing type both included |
| Listings.VideoClean | backend/properties/models.py:182-189 | a file over 524288000 bytes is refused first (exactly 500 MB passes); a file passes exactly when it is within the limit and ends in .mp4 or .mov |
| Listings.HasVideoExtensionByTail | backend/properties/models.py:188-189 | the extension test compares the last four characters, in any letter case |
| Listings.VideoExamples | backend/properties/models.py:185-189 | 500 MB with ".MOV" passes; one byte more is too large; ".avi" is refused |
| Listings.ImageClean | backend/properties/models.py:145-161 | any MIME type other than JPEG, PNG or GIF is refused; otherwise the image passes unless it is primary and another image of the property, with a different pk, is primary |
| Listings.ImageFullClean | backend/properties/models.py:133-161 | `clean_fields` refuses a missing file with the blank message; with a file, the verdict is `clean`'s |
| Listings.PrimaryWitness | backend/properties/models.py:155-161 | a primary image of the same property with a different pk blocks a new primary |
| Listings.SaveImage | backend/properties/models.py:133-161 | `full_clean` then `save`: an image without a file is refused with "This field cannot be blank."; otherwise refused with `clean`'s message exactly when `clean` refuses; an accepted image is stored as a row with its pk, property and flag, every row with another pk is kept, and the row is appended exactly when no stored row has that pk |
| Listings.StoredPk | backend/properties/models.py:145-161 | an existing image keeps its pk; a new one gets a pk no stored row has |
| Listings.MaxPk | backend/properties/models.py:145-161 | no stored pk exceeds the result, so a new row's pk is fresh |
| Listings.IndexOfPk | backend/properties/models.py:145-161 | finds the row with the given pk, or shows there is none |
| Listings.SaveImagePreservesOnePrimary | backend/properties/models.py:155-161 | when every image is saved through `clean`, pks stay unique and no property gets two primary images |
| Listings.IsActive | backend/properties/models.py:218-219 | a subscription is active strictly before its `valid_until` |
| Listings.InsertUnique | backend/properties/models.py:124 | a `unique_together` insert succeeds exactly when the key is new, and keeps the rows distinct |
| Listings.SecondInsertFails | backend/properties/models.py:213 | inserting the same key twice fails the second time (also for lines 124 and 292) |
| PaymentModels.ParseStatus | backend/payments/models.py:29-35 | a parsed status is the one whose stored name was read |
| PaymentModels.StatusNameRoundTrip | backend/payments/models.py:29-35 | every status reads back as itself from its stored name |
| PaymentModels.PaymentClean | backend/payments/models.py:68-73 | refused, with the mismatch message, exactly when the currencies differ (the integration is never null) |
| PaymentModels.Payment.Clean | backend/payments/models.py:68-73 | the payment's own currency check |
| PaymentModels.Payment.constructor | backend/payments/models.py:51 | a new payment is Created, with empty gateway fields |
| PaymentModels.Payment.InitiatePaynowPayment | backend/payments/models.py:83-126 | the loop leaves the fields the initiation function gives, makes the counted attempts, including those whose `save()` raised, saves successfully exactly once and keeps amount, currency, integration and phone |
| PaymentModels.Precheck | backend/payments/models.py:88-92 | "No active Paynow integration found." exactly for an inactive integration; otherwise the currency-mismatch message exactly when the currencies differ |
| PaymentModels.InitiateFrom | backend/payments/models.py:85-126 | from any attempt on, the status ends Sent or Failed, whether `send()` or `save()` raised |
| PaymentModels.AttemptsFrom | backend/payments/models.py:85-126 | from attempt k, between one and 3 − k attempts |
| PaymentModels.Initiated | backend/payments/models.py:83-126 | initiation writes only Sent or Failed, never Paid |
| PaymentModels.Attempts | backend/payments/models.py:83-126 | one to three attempts |
| PaymentModels.AttemptsFromBounds | backend/payments/models.py:85-126 | one to three attempts; every attempt before the last raised, in its checks, its `send()` or its `save()`, and an attempt before the third that stops the loop raised nowhere |
| PaymentModels.SentCopiesReferences | backend/payments/models.py:110-126 | Sent means some attempt was accepted with exactly the stored reference and URLs and its save succeeded; the error message is the earlier one or the error of a rejection whose save raised |
| PaymentModels.FailedKeepsReferences | backend/payments/models.py:110-126 | a payment that ends Failed keeps its earlier reference and URLs, unless an accepted response's save raised, in which case it carries that response's reference and URLs |
| PaymentModels.RejectionIsNotRetried | backend/payments/models.py:115-126 | a rejection on the first attempt whose save succeeds is final: one attempt, Failed with the gateway's error; if that save raises, the loop goes on from the rejection's writes |
| PaymentModels.PrecheckFailureFailsAfterThree | backend/payments/models.py:88-92 | with an inactive integration or a currency mismatch, three attempts raise and the payment fails with "Failed after 3 attempts: …", whatever the gateway would answer |
| PaymentModels.ThreeExceptions | backend/payments/models.py:108-126 | when `send()` raises on all three attempts nothing is written before the saves; the third exception's message alone is stored |
| PaymentModels.SaveErrorKeepsAcceptedReferences | backend/payments/models.py:110-126 | an accepted first attempt whose save raises, followed by two raising attempts, ends Failed with "Failed after 3 attempts" and the first response's reference and URLs |
| PaymentModels.InitiateStep | backend/payments/models.py:86-126 | one attempt: a quiet attempt ends the loop with its writes, the third raising one stores the final failure, an earlier raising one hands its writes to the next attempt |
| PaymentModels.AttemptRaise | backend/payments/models.py:86-121 | an attempt raises the exception of its checks or `send()` if they raised, and otherwise exactly what its `save()` raises |
| PaymentModels.Payment.WriteOutcome | backend/payments/models.py:110-117 | an attempt's writes: Sent and the response's reference and URLs, or Failed and the gateway's error, or nothing after a raise |
| PaymentSerializers.SerializeIntegrationAsWritten | backend/payments/serializers.py:5-9 | the integration is rendered with its id, name, currency and both URLs, each as stored, and without `is_active` |
| PaymentSerializers.SerializeIntegration | backend/payments/serializers.py:5-9 | the same fields plus the stored `is_active` |
| PaymentSerializers.AcceptedInput | backend/payments/serializers.py:23-31 | only writable keys of the request body are read, with their values as sent |
| PaymentSerializers.ClientCannotSetServerFields | backend/payments/serializers.py:28-31 | no request sets status, reference, Paynow id or either URL |
| PaymentSerializers.EffectiveCurrency | backend/payments/serializers.py:36 | an absent currency is "USD" |
| PaymentSerializers.Validate | backend/payments/serializers.py:33-42 | refused, with the integration's message, exactly when an integration is given and the currency differs; otherwise the data comes back unchanged |
| PaymentSerializers.ValidateAgreesWithClean | backend/payments/serializers.py:33-42 | with an integration, the serializer accepts exactly the input whose payment `Payment.clean` accepts; input without one passes unchanged |
| PaymentSerializers.ToRepresentation | backend/payments/serializers.py:44-48 | `is_redirectable` holds exactly when `payment_url` is non-empty, `is_pollable` exactly when `poll_url` is; other fields are unchanged |
| PaymentSerializers.FailedPaymentIsNotOffered | backend/payments/serializers.py:44-48 | a new payment whose initiation failed, with no accepted response whose save raised, is rendered "Failed", neither redirectable nor pollable |
| PaymentSerializers.FailedPaymentOfferedAfterSaveError | backend/payments/serializers.py:44-48 | a Failed payment whose accepted first response's save raised is still rendered redirectable and pollable, with that response's URLs |
| Receipts.NatText | backend/payments/services.py:172 | the decimal digits of the number, at least one, no leading zero, denoting exactly the number |
| Receipts.AmountText | backend/payments/services.py:172 | `str()` of a two-place decimal ends in a point and two digits |
| Receipts.AmountTextDenotes | backend/payments/services.py:172 | the amount's text reads back as the amount: a minus sign exactly for a negative amount, the whole units without a leading zero, and two digits of cents |
| Receipts.ItemsDescription | backend/payments/services.py:172 | the item line begins with the fixed prefix and the payment's reference and ends with the amount's text and a full stop |
| Receipts.CustomerPhone | backend/payments/services.py:167 | the buyer's phone when non-empty; else the user's phone number, or the text "None" when the user has none; "N/A" without a user |
| Receipts.NewReceipt | backend/payments/services.py:164-189 | receipt for the payment: its amount and currency; name and e-mail from the user or "N/A"; phone as above; the integration's name; the item line for the payment |
| Receipts.NewReceiptAsWritten | backend/payments/services.py:165 | raises exactly when the payment has a user; otherwise the same receipt |
| Receipts.Generate | backend/payments/services.py:144-206 | corrected: a receipt returned is the one stored under the payment, and only for a Paid payment; the table gains at most this payment's entry |
| Receipts.GenerateAsWritten | backend/payments/services.py:144-206 | as written: the same guarantees, with the mapping as written |
| Receipts.UserPaymentsGetNoReceiptAsWritten | backend/payments/services.py:164-206 | as written, a paid payment with a user gets no receipt and the table is unchanged |
| Receipts.UserPaymentsGetReceipt | backend/payments/services.py:164-202 | corrected, the same payment gets its receipt, stored and named after the user |
| Receipts.AsWrittenAgreesWithoutUser | backend/payments/services.py:164-206 | the two versions agree on payments without a user |
| Receipts.NotPaidNoReceipt | backend/payments/services.py:149-151 | a payment that is not Paid yields nothing and creates nothing |
| Receipts.AtMostOneReceiptPerPayment | backend/payments/services.py:154-190 | the table gains at most this payment's entry, only when it is Paid, and existing receipts never change |
| Receipts.GenerateIdempotent | backend/payments/services.py:154-162 | once a receipt exists, a second call returns it and changes nothing |
| Receipts.FailureGivesNone | backend/payments/services.py:190-206 | an exception gives `None`; one after the row is written still leaves the receipt stored |
| Receipts.ReceiptLedger.GenerateAndSaveReceipt | backend/payments/services.py:144-206 | as written: returns and stores what the as-written generation function gives (so a payment with a user gets nothing), keeps each receipt under its own payment and returns the stored receipt |
| Receipts.ReceiptLedger.constructor | backend/payments/services.py:180-190 | the table starts empty |
| Permissions.IsAdminOrSelf | backend/core/permissions.py:10-11 | staff, or the requester's own user object |
| Permissions.AdminOrSelfAdmitsEveryNonCustomer | backend/core/permissions.py:4-11 | for a saved user the rule admits every role but customer to any object, and a customer only to their own account |
| Permissions.AgentActsOnOtherUser | backend/core/permissions.py:4-11 | as written, an agent passes the rule on another user's account |
| Permissions.IsAdminOrSelfIntended | backend/core/permissions.py:4-11 | corrected: the admin role, or the requester's own account |
| Permissions.AdminOrSelfIntendedNarrows | backend/core/permissions.py:4-11 | the corrected rule is narrower, admits a non-admin only to their own account, and differs from the written one exactly for agents and agency staff on another object |
| Permissions.ConsultedAgencyAsWritten | backend/core/permissions.py:22-35 | the agency consulted; raises exactly for a user object without an agency |
| Permissions.ConsultedAgency | backend/core/permissions.py:22-35 | the agency itself, a user's agency, or none |
| Permissions.IsAgencyOwner | backend/core/permissions.py:20-35 | corrected: an owner member of the consulted agency; a user without an agency is denied |
| Permissions.IsAgencyMember | backend/core/permissions.py:44-53 | corrected: a member of the consulted agency; a user without an agency is denied |
| Permissions.IsAgencyOwnerAsWritten | backend/core/permissions.py:20-35 | raises for a user without an agency; otherwise grants exactly to an owner member of the consulted agency |
| Permissions.IsAgencyMemberAsWritten | backend/core/permissions.py:44-53 | raises for a user without an agency; otherwise grants exactly to a member of the consulted agency |
| Permissions.UserWithoutAgencyRaises | backend/core/permissions.py:29-33 | both rules raise on a user object without an agency, whoever asks |
| Permissions.CorrectedRulesAgree | backend/core/permissions.py:20-53 | the corrected rules deny a user without an agency and agree with the written ones wherever those answer |
| Permissions.OwnerIsMember | backend/core/permissions.py:20-53 | every owner grant is a member grant; a user object is judged as its agency is |
| Permissions.IsAdminOrAgencyOwner | backend/core/permissions.py:62-66 | staff, or role "agency" with agency role owner |
| Permissions.AdminOrAgencyOwnerIsStaff | backend/core/permissions.py:62-66 | for a declared role the rule is just `is_staff`, so a saved user passes exactly when not a customer |
| Permissions.IsAgentOrAdmin | backend/core/permissions.py:74-75 | staff, or role agent |
| Permissions.IsAgentOrAdminFor | backend/core/permissions.py:77-78 | the same test, whatever the object |
| Permissions.AgentOrAdminSameAtBothLevels | backend/core/permissions.py:74-78 | the object-level rule equals the view-level rule, and for a saved user both are `is_staff` |
| RegisterPage.PasswordStrength | frontend/src/pages/Register.jsx:36-52 | under 6 characters is "Too short"; "Strong" exactly with all four classes; otherwise the first missing class in the order upper, lower, digit, symbol |
| RegisterPage.StrongStaysStrong | frontend/src/pages/Register.jsx:38-49 | appending characters to a strong password keeps it strong |
| RegisterPage.StrengthExamples | frontend/src/pages/Register.jsx:38-49 | five characters are too short whatever they are; "Ab1!xy" is strong; "abcdef" needs upper case |
| RegisterPage.EntriesAreFields | frontend/src/pages/Register.jsx:56 | the form's entries are exactly its seven fields with their values |
| RegisterPage.FormErrors | frontend/src/pages/Register.jsx:54-65 | the error keys are required fields only, never `agency_name`, and each message is "This field is required" or "Passwords do not match" |
| RegisterPage.FormErrorsByField | frontend/src/pages/Register.jsx:54-65 | every empty required field is reported as required; a reported field other than `confirm_password` is empty; `confirm_password` is reported when empty or mismatched, the mismatch taking precedence |
| RegisterPage.FormErrorsEmptyIff | frontend/src/pages/Register.jsx:54-65 | no errors exactly when every required field is filled and the passwords match; `agency_name` is never an error; a mismatch wins over "required" |
| RegisterPage.RequiredErrorsComplete | frontend/src/pages/Register.jsx:56-64 | the fields found empty among all the entries, plus the mismatch check, give exactly the specified error map |
| RegisterPage.ValidateForm | frontend/src/pages/Register.jsx:54-65 | the `forEach` loop and the mismatch check produce exactly the specified error map |
| RegisterPage.Payload | frontend/src/pages/Register.jsx:82-83 | the payload holds every field but `agency_name`, as entered |
| RegisterPage.FailureMessageAsWritten | frontend/src/pages/Register.jsx:90 | without a `response` the message is "Registration failed"; with a truthy `detail`, that detail |
| RegisterPage.FailureMessage | frontend/src/pages/Register.jsx:90 | corrected: never empty, and the thrown error's message whenever it has one |
| RegisterPage.FailureMessageAsWrittenIsConstant | frontend/src/pages/Register.jsx:89-91 | as written, every failed registration shows "Registration failed" |
| RegisterPage.FailureMessageShowsServerError | frontend/src/pages/Register.jsx:89-91 | corrected, the message shown is the one `register` throws |
| RegisterPage.HandleSubmit | frontend/src/pages/Register.jsx:67-96 | as written: an invalid form is reported and nothing is sent; otherwise the payload is sent, and the reply gives success or, for every failure, "Registration failed" |
| AuthApi.Find | frontend/src/api/auth.js:117 | the value stored under a key of a body, or proof there is none |
| AuthApi.FieldLines | frontend/src/api/auth.js:118-119 | one "field: errors" line per entry, in order |
| AuthApi.HandleAuthError | frontend/src/api/auth.js:109-139 | no response gives the network message; a 400 object without `detail` gives its field lines; a 500 gives the server message |
| AuthApi.FallbacksUnreachable | frontend/src/api/auth.js:125-137 | elsewhere the message is `detail` when truthy and the default error otherwise; the status-specific fallbacks never appear |
| AuthApi.FieldErrorExample | frontend/src/api/auth.js:117-122 | an e-mail field with two errors becomes "email: required, invalid" |
| AuthApi.Register | frontend/src/api/auth.js:58-65 | the reply's data, or the mapped error |
| AuthApi.Keep | frontend/src/api/auth.js:17-24 | a truthy token replaces the stored one; anything else keeps it |
| AuthApi.HeaderAfter | frontend/src/api/auth.js:17-20 | a truthy access token sets the header to its bearer value; otherwise the header is kept |
| AuthApi.AuthStore.constructor | frontend/src/api/auth.js:35-36 | a page starts with the stored tokens and no header |
| AuthApi.AuthStore.SetAuthTokens | frontend/src/api/auth.js:16-25 | writes only the tokens supplied and sets the header with a new access token |
| AuthApi.AuthStore.ClearAuthTokens | frontend/src/api/auth.js:28-32 | removes both tokens and the header |
| AuthApi.AuthStore.InitializeAuthHeader | frontend/src/api/auth.js:39-44 | a stored access token sets the header; the tokens are kept |
| AuthApi.AuthStore.Login | frontend/src/api/auth.js:47-56 | success stores the returned tokens and sets the header from a returned access token; failure clears both tokens and the header and throws the mapped error |
| AuthApi.AuthStore.RefreshToken | frontend/src/api/auth.js:67-85 | no refresh token: the session-expired error, no request, nothing changed; success stores the tokens (keeping the old refresh token when none is returned) and sets the header from a returned access token; failure clears everything |
| AuthApi.AuthStore.VerifyToken | frontend/src/api/auth.js:87-102 | false, with nothing changed, without an access token; true, with nothing changed, when it verifies; otherwise the refresh decides the result and the store: unchanged without a refresh token, the refreshed tokens and header on success, all cleared on failure |
| PaymentApi.OrDefault | frontend/src/api/payment.js:31 | a present, non-empty message, else the fallback |
| PaymentApi.RetryDelay | frontend/src/api/payment.js:44-45 | the `retry-after` seconds in ms, or 5000 when missing, not a number or zero |
| PaymentApi.CreatePaymentFrom | frontend/src/api/payment.js:11-56 | between one and `retries` + 1 requests, one wait between each pair |
| PaymentApi.CreatePayment | frontend/src/api/payment.js:11 | at most four requests |
| PaymentApi.CreatePaymentFromShape | frontend/src/api/payment.js:15-56 | every request but the last got a 429 and is followed by its retry delay; success exactly when the last reply is a 201 with `success` and a payment, and then that payment; a last 429 means the retries ran out; a failure carries the last reply's status and message (or the cancellation or generic message) |
| PaymentApi.RateLimitedFourTimes | frontend/src/api/payment.js:43-54 | four 429s make four requests with three waits, and the last 429 is reported |
| PaymentApi.CancelIsNotRetried | frontend/src/api/payment.js:35-40 | a cancelled request returns "Request cancelled" after one request |
| PaymentApi.DetailsFrom | frontend/src/api/payment.js:61-93 | at least one request and at most 5 − attempt from attempt ≤ 4; a non-cancellation error before the attempts run out is retried; an answer or a cancellation ends the call at once; one delay between each two requests |
| PaymentApi.GetPaymentDetails | frontend/src/api/payment.js:61 | at most four requests |
| PaymentApi.DetailsBackoffSchedule | frontend/src/api/payment.js:81-85 | the i-th delay is 1000·2^(attempt−1+i) ms and follows a failed, non-cancelled request |
| PaymentApi.DetailsDelays | frontend/src/api/payment.js:81-85 | the delays of a call are a prefix of 1000, 2000, 4000 |
| PaymentApi.DetailsOutcome | frontend/src/api/payment.js:61-93 | success exactly when the last request was answered, with its payment; a cancellation fails at once with "Request cancelled"; a final error comes only after the attempts are used up and carries that error's message (or the default) and status |
| PaymentApi.CacheServesForFiveMinutes | frontend/src/api/payment.js:106-126 | data stored at t is served without a request before t + 300000 ms and not from then on |
| PaymentApi.StaleFallback | frontend/src/api/payment.js:140-149 | on a failed request, cached data is returned whatever its age, and the cache is untouched |
| PaymentApi.CacheWritesAreFresh | frontend/src/api/payment.js:116-126 | the cache is written only with truthy fetched data, expiring 300000 ms later |
| PaymentApi.CacheStep | frontend/src/api/payment.js:99-158 | a request is made exactly when the cache is not fresh; fresh data is served as is; a fetch returns the fetched data and caches it, expiring 300000 ms later, when truthy; a cancellation fails with "Request cancelled"; any other error returns the cached data whatever its age, or without it fails with the error's message (or the default) and status; the cache changes only on a truthy fetch |
| PaymentApi.IntegrationsCache.GetActiveIntegrations | frontend/src/api/payment.js:99-158 | result, cache and request flag are those of the cache-step function |
| PaymentApi.IntegrationsCache.constructor | frontend/src/api/payment.js:103-104 | an empty session starts with no data and no expiry |
| PaymentContext.CoerceActive | frontend/src/context/PaymentContext.jsx:31-34 | `is_active` becomes a boolean by truthiness; every other field is unchanged |
| PaymentContext.CoerceActiveIdempotent | frontend/src/context/PaymentContext.jsx:31-34 | coercing twice equals coercing once |
| PaymentContext.CoerceItem | frontend/src/context/PaymentContext.jsx:31-34 | an object is coerced; null and undefined elements throw; every result has a boolean `is_active` |
| PaymentContext.CoerceActiveKeepsFlag | frontend/src/context/PaymentContext.jsx:31-34 | a record whose `is_active` is already a boolean comes back unchanged |
| PaymentContext.CoerceAll | frontend/src/context/PaymentContext.jsx:31-34 | `map` succeeds exactly when no element throws, coercing each in order; otherwise it fails with an element's error |
| PaymentContext.FetchOutcomeOf | frontend/src/context/PaymentContext.jsx:26-50 | a retry in 30 s exactly after a 429 failure; a list shown only for an array, element for element; falsy data gives "Failed to load integrations"; an error message is never empty |
| PaymentContext.LoadedIntegrationsAreFlagged | frontend/src/context/PaymentContext.jsx:29-36 | the list shown is the server's array, element by element, each with a boolean `is_active` |
| PaymentContext.FetchFailureCases | frontend/src/context/PaymentContext.jsx:37-46 | a retry in 30 s is scheduled only after a 429 that the cache did not cover; a cancelled request is shown as an error |
| PaymentContext.DefaultMessageOnlyForFalsyData | frontend/src/context/PaymentContext.jsx:40-45 | a failure shows its own message; "Failed to load integrations" is shown for a successful reply exactly when its data is falsy |
| PaymentContext.RenderedList | backend/payments/views.py:8-13 | the list view renders each integration with the corrected serializer |
| PaymentContext.RenderedListAsWritten | backend/payments/views.py:8-13 | the list view renders each integration with the serializer as written |
| PaymentContext.InactiveAsWrittenItem | frontend/src/context/PaymentContext.jsx:31-34 | one integration rendered without `is_active` is coerced to an object whose `is_active` is false |
| PaymentContext.ListedIntegrationsShownInactiveAsWritten | frontend/src/context/PaymentContext.jsx:31-34 | as written, every listed integration is shown with `is_active` false |
| PaymentContext.ListedIntegrationsShownAsStored | frontend/src/context/PaymentContext.jsx:31-34 | with `is_active` rendered, integrations are shown exactly as rendered, with their stored flag |
| PaymentContext.FinalStatusesAreFinalStates | frontend/src/context/PaymentContext.jsx:116 | polling stops exactly at the names of Paid, Cancelled and Failed |
| PaymentContext.PollFrom | frontend/src/context/PaymentContext.jsx:108-144 | from tick k, at least k + 1 ticks are polled, and a rejection is always "Polling timeout" |
| PaymentContext.PollShape | frontend/src/context/PaymentContext.jsx:108-144 | at least one poll and at most `maxAttempts`; no earlier poll was final; resolves exactly on a final status, with its payment; otherwise "Polling timeout" after the last attempt |
| PaymentContext.PollResolvesAtFirstFinal | frontend/src/context/PaymentContext.jsx:116-119 | resolves with the first final status within the attempts and polls no further |
| PaymentContext.PollTimesOut | frontend/src/context/PaymentContext.jsx:121-123 | without a final status, rejects with "Polling timeout" after exactly `maxAttempts` polls (at least one), failed fetches included |
| PaymentContext.DefaultPollingGivesUpAfterTwelve | frontend/src/context/PaymentContext.jsx:108 | with the default, twelve non-final polls end in the timeout |
| PaymentContext.PollPaymentStatus | frontend/src/context/PaymentContext.jsx:108-144 | the interval loop gives the outcome and the poll count of the polling function |
| PaymentContext.PaymentState.constructor | frontend/src/context/PaymentContext.jsx:12-17 | the initial state: not loading, no integrations, payment or error, amount 0, no retries |
| PaymentContext.PaymentState.FetchIntegrations | frontend/src/context/PaymentContext.jsx:26-50 | through the cache: shows the coerced list and clears the error, or schedules a retry, or sets the error; loading ends false |
| PaymentContext.PaymentState.RetryTimerFired | frontend/src/context/PaymentContext.jsx:21-23 | the retry counter grows by one; nothing else changes |
| PaymentContext.PaymentState.InitiatePayment | frontend/src/context/PaymentContext.jsx:59-88 | a falsy amount, currency or integration gives "Missing required fields" with no request and no change; otherwise the created payment and its amount are stored, or the failure's message becomes the error; loading ends false |
| PaymentContext.PaymentState.FetchPaymentDetails | frontend/src/context/PaymentContext.jsx:90-106 | the fetched payment is stored, or the failure's message becomes the error; loading ends false |
| Text.Lower | backend/core/models.py:290 | Python's `lower()` on ASCII: same length, no upper-case letter |
| Text.Strip | backend/core/models.py:291-292 | Python's `strip()`: no longer than the input, no surrounding white space |
| Text.StripIsSlice | backend/core/models.py:291-292 | the stripped string is a slice of the input, and everything cut off on either side is white space |
| Text.StripIdempotent | backend/core/models.py:291-292 | stripping twice equals stripping once |
| Text.Join | frontend/src/api/auth.js:119-120 | JavaScript's `join`: empty for no parts, the part itself for one; the length is the parts' total plus one separator between each two; the first part comes first |
| Text.JoinSnoc | frontend/src/api/auth.js:119-120 | joining one more part appends one separator and that part, so the parts appear in order, separated exactly once |

## Left out

- I/O is not modelled: the database, HTTP, `localStorage`/`sessionStorage` persistence, toasts, console logging and navigation. The network is replaced by reply scripts, and `timezone.now()`/`Date.now()` by a parameter.
- PDF rendering of receipts and the Receipt model's own `receipt_number`/`issued_at` are not modelled.
- Receipts: the model assumes a Receipt model with the fields backend/payments/services.py:180-189 writes and a one-to-one `payment.receipt` (services.py:154). backend/payments/models.py as given defines no Receipt, so the import at services.py:9 would raise `ImportError` and `generate_and_save_receipt` could not run; the model describes the function as if that model existed. A PDF step that raises is the `AfterSave` failure. One that returns nothing is the successful path, as in the source.
- The Paynow SDK internals are replaced by one outcome per attempt.
- The webhook stub, Celery tasks, signals, admin, migrations, URL configuration and `wait_for_db` are not modelled.
- Foreign validators are inputs: `validate_email`, the Django password validators, `PhoneNumberField`, encrypted fields and MIME sniffing of uploads.
- Accounts.CreateUser: the rejection messages of the e-mail validator, the password validators and `full_clean` are placeholders for Django's own messages.
- Accounts.NewRating: the rating is an exact real. The two-decimal `DecimalField` rounding is not modelled.
- Text.Lower: `lower()` and `strip()` are modelled on ASCII letters and ASCII white space only. There is no Unicode case mapping.
- RegisterPage.PasswordStrength: string length counts characters, not UTF-16 code units.
- Accounts.User.ServiceAreas: `list(set(...))` has no defined order in Python. The model keeps the first-appearance order.
- Listings.SaveImage: a new row takes the next free primary key, standing in for the database's sequence.
- Permissions: `IsOwnerOrReadOnly` in backend/properties/views.py is not part of this model. Anonymous requesters are not modelled: every rule takes an authenticated user.
- AuthApi.HandleAuthError: response bodies are nothing, a string, or an object whose field values are strings or lists of strings. Other JSON values, such as null or nested objects, are not modelled.
- PaymentApi.RetryDelay: the `retry-after` header arrives already parsed. `parseInt`'s handling of partial numbers is not modelled.
- PaymentApi.DetailsFrom: it requires `attempt >= 1`. Every caller uses the default, 1.
- PaymentApi.CacheStep: cached data is held as a value. The JSON string round trip through `sessionStorage` is not modelled.
- PaymentContext.CoerceItem: spreading a string or an array element would add index keys. The model gives such an element only `is_active: false`. The server only renders objects.
- PaymentContext.PollPaymentStatus: each tick gets a `getPaymentDetails` result as an input. The interval is not timed, and overlapping ticks are not modelled. An overlap happens when a backed-off call outlasts the interval; polls are sequential here.
- PaymentContext: the React effect that refetches integrations when `retryCount` changes, and the abort signal, are not modelled. `getActiveIntegrations` ignores that signal anyway.
- The Celery jobs in backend/payments/tasks.py compare statuses with lower-case 'paid' and 'pending', which are not stored status names, so those guards never match. These jobs are not part of this model.
- Accounts.ChecksPass: `full_clean`'s uniqueness check of the e-mail needs the database and is not modelled.
- Accounts.CreateUser: what the password hasher makes of the password is an input (`encoded`).
- Accounts.SaveNewUser: the creation timestamps are not stated by the creation methods. `Accounts.User.FullClean` states them.
- Accounts.CreateUserWithUnusablePassword: the random characters of the unusable password are an input (`salt`).
- Receipts.NewReceipt: the integration foreign key is non-null, so the "Unknown" payment-method fallback never applies and is not modelled.
- PaymentModels.Payment.InitiatePaynowPayment: the `save()` in the `except` branch of the last attempt (backend/payments/models.py:126) is assumed to succeed. If it raised, the exception would leave the method with the fields written and nothing saved; `saveCount` counts only successful saves.
- PaymentSerializers.FailedPaymentIsNotOffered: it holds only when no accepted response's save raised. `PaymentSerializers.FailedPaymentOfferedAfterSaveError` shows the other case, where a Failed payment keeps its Paynow URLs.
- PaymentModels.Payment: every payment has an integration. An unsaved payment without one would raise `RelatedObjectDoesNotExist`; that case is not modelled.
- PaymentSerializers.PaymentInput: the integration is optional, because partial updates may leave it out. Amounts are whole cents, rendered as decimal strings.

## Findings

| source | as written | input that shows it | evidently intended | confidence | as-written member | corrected member |
|---|---|---|---|---|---|---|
| backend/payments/services.py:165 | the customer name is read from `user.get_full_name()`, which the user model (built on `AbstractBaseUser`) does not define; the `AttributeError` is caught and `None` returned | any Paid payment that has a user and no receipt yet | use the model's `full_name` property | high (not executed) | `Receipts.NewReceiptAsWritten`, `Receipts.UserPaymentsGetNoReceiptAsWritten`, `Receipts.ReceiptLedger.GenerateAndSaveReceipt` | `Receipts.NewReceipt`, `Receipts.UserPaymentsGetReceipt` |
| backend/core/permissions.py:29-33 | a user object always has an `agency` attribute, so for a user without an agency `obj.agency.members` raises `AttributeError` on `None` | `IsAgencyOwner` or `IsAgencyMember` asked about a user whose agency is null | deny, as for an object without an agency | high (not executed) | `Permissions.IsAgencyOwnerAsWritten`, `Permissions.UserWithoutAgencyRaises` | `Permissions.IsAgencyOwner`, `Permissions.CorrectedRulesAgree` |
| frontend/src/pages/Register.jsx:90 | the message is read from `error.response.data.detail`, but `register` throws a plain `Error` carrying the mapped message and no `response` | a registration refused with a 400 listing field errors | show the thrown error's message | high (not executed) | `RegisterPage.FailureMessageAsWritten`, `RegisterPage.FailureMessageAsWrittenIsConstant`, `RegisterPage.HandleSubmit` | `RegisterPage.FailureMessage`, `RegisterPage.FailureMessageShowsServerError` |
| backend/payments/serializers.py:8 | the integration serializer leaves out `is_active`, which the client coerces with `Boolean(integration.is_active)` (frontend/src/context/PaymentContext.jsx:33) | any active integration listed by the integrations endpoint | render `is_active` so the client sees the stored flag | medium (not executed) | `PaymentSerializers.SerializeIntegrationAsWritten`, `PaymentContext.ListedIntegrationsShownInactiveAsWritten` | `PaymentSerializers.SerializeIntegration`, `PaymentContext.ListedIntegrationsShownAsStored` |
| backend/core/models.py:33-38 | without a password the field keeps its blank default, and the `full_clean` call that follows refuses a blank password, so `create_user` always raises | `create_user("a@b.co", "A", "B")` with no password | store an unusable password, as Django's own manager does | high (not executed) | `Accounts.CreateUser`, `Accounts.StoredPassword` | `Accounts.CreateUserWithUnusablePassword`, `Accounts.UnusablePassword` |
| backend/core/permissions.py:10-11 | `save` makes every role but customer staff, so the "admin or self" rule lets agents and agency staff act on any object | an agent asking to change another user's account | admit admin users and the account owner only, as the rule's message says | medium (not executed) | `Permissions.IsAdminOrSelf`, `Permissions.AgentActsOnOtherUser` | `Permissions.IsAdminOrSelfIntended`, `Permissions.AdminOrSelfIntendedNarrows` |

Other behaviour of the source, modelled as written:

- In frontend/src/context/PaymentContext.jsx, the 429 branch of `initiatePayment` at lines 78-79 is never taken: the error it catches has no `response` (`PaymentContext.PaymentState.InitiatePayment`).
- The `axios.isCancel` test of `fetchIntegrations` at line 43 never sees a cancellation (`PaymentContext.FetchFailureCases`).
- The status-specific fallbacks of frontend/src/api/auth.js:129-133 are unreachable (`AuthApi.FallbacksUnreachable`).
- `IsAdminOrAgencyOwner` tests for the role 'agency', which is not a declared role (`Permissions.AdminOrAgencyOwnerIsStaff`).
- `createPayment` treats a 201 with `success` but no payment as the generic failure. Reading `payment.reference` throws, and the catch turns that into the failure.
- When a payment has no buyer phone and its user has no phone number, the receipt's phone is the text "None".
- In backend/payments/models.py, the writes of an attempt are not undone when its `save()` at line 119 raises. An accepted response whose save fails leaves its Paynow reference and URLs on the payment, and that payment can end Failed yet still be offered for redirection (`PaymentModels.SaveErrorKeepsAcceptedReferences`, `PaymentSerializers.FailedPaymentOfferedAfterSaveError`).
