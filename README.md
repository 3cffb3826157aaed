# Hotel PMS booking and money core, modelled in Dafny

This project models the booking and money path of a hotel property-management back end. The document store becomes in-memory maps and sequences. Ids are text, money is an integer number of minor units, and dates are integer day numbers.

The model covers:

- **Reservation creation** (`reservation_controller.dfy`, `license_model.dfy`):
  - the 401 gates;
  - the reservation written with an empty licence list;
  - one licence per requested room-type line, with `totalCharges = baseRate + taxAmount - discountAmount` and the schema defaults (not started, no room, not cancelled, discount 0);
  - the licence ids written back in request order.

  `ReservationStore.CreateReservation` is a method over the two collections. It attempts every line, as `Promise.all` does, and nothing is rolled back: when one line fails, the licences of the lines that succeeded stay stored, pointing at a reservation whose licence list stays empty. The guest list the handler passes is dropped, because the reservation schema declares no such path.
- **Payment ledger** (`payment_model.dfy`, `payment_service.dfy`):
  - adding a payment appends its id to the reservation's payment list;
  - updates and voids go through a filter that only matches a payment that is not void, so a void is final;
  - `PaymentLedger` is a class holding the payments and each reservation's list of payment ids.
- **Payment endpoints** (`payment_controller.dfy`):
  - the required-field gates, where `!amountPaid` turns away an amount of 0;
  - the add transaction: commit with 201, or abort with 500 so that neither write survives (modelled by a snapshot and a restore);
  - the 404 answered when the service finds nothing.
- **Availability** (`occupancy_controller.dfy`):
  - per room type of the property, `max(0, rooms - overlapping licences)`;
  - overlap is the inclusive test `checkIn <= queryCheckOut && checkOut >= queryCheckIn`;
  - the 400 and 401 guards come first.
- **Admin access** (`admin_access.dfy`): the allow or deny decision over the global role and the membership lookup.
- **Guest profiles** (`profile_controller.dfy`):
  - creating an individual profile: schema check, then the duplicate email within the property, then the insert under the unique email index;
  - the individual and company searches, whose filters are built from the query parameters given, and which answer 400 when none was given. The company search filters on a `propertyRef` that the company schema does not declare, so what it finds depends on the store's `strictQuery` setting: with it off nothing is found, with it on the key is stripped and companies of every property are found.
- **Request validators** (`zod.dfy` plus one module per schema): the field rules of the tax, room-type, room, profile, auth and meal-plan schemas.
  - Checks run in the order written, so a length bound placed before `.trim()` looks at the text as received. A blank name therefore passes and is stored empty.
  - The JavaScript built-ins the validators use are modelled in `js.dfy` over ASCII: `trim`, `toLowerCase`, `toUpperCase` and `Number(...)`.

Status codes are those of the first response a handler sends.

## Model

| member | source | states |
|---|---|---|
| LicenseModel.CreateLicense | src/models/license.model.ts:44-111 | Creation succeeds exactly when reservation, property, room type, creator, base rate, tax and total are all given. The new licence is not started, has no room, no assignment and no cancellation, and keeps the given fields. The discount is 0 when absent. |
| ReservationController.Gate | src/controllers/reservation.controller.ts:21-34 | The request passes exactly when the booker id and booker type are truthy and both dates are present. Otherwise the answer is 401. Date order is not checked. |
| ReservationController.BookerModelOf | src/models/reservation.model.ts:45-48 | A booker type is accepted exactly when it is `IndividualProfile` or `CompanyProfile`. |
| ReservationController.LineLicense | src/controllers/reservation.controller.ts:47-62 | A line gives a licence exactly when it has a room type. The licence is fresh, with `totalCharges = baseRate + taxAmount - discountAmount`, the new reservation's id, the property, the request's dates, an empty guest list and the user as creator. |
| ReservationController.CreatableStep | src/controllers/reservation.controller.ts:45-65 | Adding one line keeps every licence creatable exactly when the new line has a room type and its id is unused both in the store and by earlier lines. |
| ReservationController.LineLicenses | src/controllers/reservation.controller.ts:45-62 | There is one entry per line, in line order, and each is that line's licence. |
| ReservationController.Attempted | src/controllers/reservation.controller.ts:45-65 | Attempting the lines in order keeps every earlier licence unchanged. The stored ids become exactly the old ones plus the ids of the lines that give a licence. |
| ReservationController.AttemptedStores | src/controllers/reservation.controller.ts:45-65 | A line that gives a licence, under an id new to the store and to the earlier lines, leaves exactly that licence under its id. |
| ReservationController.LinesLeaveLicences | src/controllers/reservation.controller.ts:45-65 | Whatever the other lines do, each line with a room type and a fresh id of its own leaves its licence behind. So a failed creation leaves orphan licences that point at the new reservation. |
| ReservationController.CreatableAttempt | src/controllers/reservation.controller.ts:45-65 | One more line keeps the lines creatable exactly when the earlier ones are, the line gives a licence, and its id is still free after the earlier lines were attempted. |
| ReservationController.AllStoredCreatable | src/controllers/reservation.controller.ts:45-65 | Every attempted line stores its licence exactly when the lines are creatable. |
| ReservationController.AttemptedCreatable | src/controllers/reservation.controller.ts:45-65 | For creatable lines, the stored ids become exactly the old ones plus one id per line, and each line's licence sits under its id. |
| ReservationController.ReservationStore.CreateLicences | src/controllers/reservation.controller.ts:45-65 | The licence collection becomes exactly `Attempted` over the lines' licences, whether or not the whole fails. The creation fails exactly when some line is not creatable, and otherwise yields the given ids in line order. Reservations are untouched. |
| ReservationController.ChargesAddUp | src/controllers/reservation.controller.ts:54-60 | The total charges of the created licences add up to the sum over the request lines of base plus tax minus discount. |
| ReservationController.ReservationStore.CreateReservation | src/controllers/reservation.controller.ts:21-77 | A 401 gate writes nothing. An unknown booker type or a taken id gives 500 with nothing written. Once the reservation is stored and the lines are present, the licence collection is exactly `Attempted` over the lines, on success and on failure alike. 201 comes exactly when every line is creatable. The reservation then holds property, booker, type and creator as given, plus one licence id per line in request order, and each licence is built from its line; no guest list is stored. Earlier documents are never changed. A failure after the reservation was stored leaves it as given (property, booker, type and creator) with an empty licence list, while the licences of the lines that succeeded remain. |
| PaymentModel.CreatePayment | src/models/payment.model.ts:21-64 | Creation succeeds exactly when reservation, property, amount and creator are given and the method is a payment-method enum value. The payment is not void, is dated now, has never been updated, and keeps the given reference and notes. |
| PaymentService.Amended | src/services/payment.service.ts:60-69 | An update sets amount, method, reference, updater and, when given, notes. Void flag, reservation, property, creator and date are unchanged. |
| PaymentService.Voided | src/services/payment.service.ts:87-92 | A void sets `isVoid` and the updater and changes nothing else. |
| PaymentService.Matches | src/services/payment.service.ts:53-59 | The update and void filter matches only a stored payment that is not void and belongs to the given reservation and property. |
| PaymentService.VoidedNeverMatches | src/services/payment.service.ts:80-86 | A voided payment no longer matches the update or void filter. |
| PaymentService.PaymentLedger.AddPayment | src/services/payment.service.ts:17-39 | Success comes exactly when the store does not fail, the fields validate and the id is new. The payment is then stored and its id appended to the reservation's list, if that reservation exists. A failed insert changes nothing. A failed append leaves the inserted payment in place. Void payments are never touched. |
| PaymentService.PaymentLedger.UpdatePayment | src/services/payment.service.ts:53-70 | A payment is returned exactly when the id, reservation and property match and it is not void. Only that payment changes, to its amended form. Otherwise nothing changes. |
| PaymentService.PaymentLedger.CancelPayment | src/services/payment.service.ts:80-94 | A payment is voided and returned exactly when the filter matches. Otherwise nothing changes. Void payments stay as they were. |
| PaymentService.VoidTwice | src/services/payment.service.ts:80-94 | After a first void, a second void and an update both find nothing, and the payment stays exactly as the first void left it. |
| PaymentController.GatesOnAmountAndNotes | src/controllers/payment.controller.ts:96-107 | An amount of 0 fails the add gate, and the notes never affect it. |
| PaymentController.UpdateGateIgnoresPaymentId | src/controllers/payment.controller.ts:173-182 | The update gate does not depend on the payment id. |
| PaymentController.AddPaymentHandler | src/controllers/payment.controller.ts:98-133 | 400 comes exactly when the gate fails. 201 comes exactly when the gate passes, the store does not fail, the method is valid and the id is new, and the payment is then stored and appended. Any other answer (400, 500) leaves both collections as they were. |
| PaymentController.UpdatePaymentHandler | src/controllers/payment.controller.ts:173-203 | 400 comes exactly when the gate fails. 200 comes exactly when the gate passes and a matching non-void payment exists, which is then amended. Otherwise the answer is 404 with nothing changed. |
| PaymentController.CancelPaymentHandler | src/controllers/payment.controller.ts:242-262 | 400 comes when property, reservation or payment id is missing. 200 comes exactly when a matching non-void payment exists, which is then voided. Otherwise the answer is 404 with nothing changed. |
| OccupancyController.CountIsCardinality | src/controllers/occupancy.controller.ts:45-65 | The recursive count equals the number of matching positions, as a document count does. |
| OccupancyController.TotalRooms | src/controllers/occupancy.controller.ts:45-49 | The room count is the number of stored rooms of the property and room type. |
| OccupancyController.BookedRooms | src/controllers/occupancy.controller.ts:52-65 | The booked count is the number of stored licences of the property and room type whose stay overlaps the queried one, both ends inclusive. |
| OccupancyController.AvailableRooms | src/controllers/occupancy.controller.ts:69 | The availability is never negative and never above the room count. It is at least rooms minus booked, and it is either 0 or exactly rooms minus booked. |
| OccupancyController.PropertyRoomTypes | src/controllers/occupancy.controller.ts:30-32 | The result holds exactly the room types of the property. |
| OccupancyController.GetOccupancy | src/controllers/occupancy.controller.ts:16-83 | 400 comes exactly when a date or the property is missing or check-in is not before check-out. 401 comes exactly when the property has no room types. Otherwise the answer has one entry per room type, in stored order, each being that type's clamped availability, which is at most its room count. |
| OccupancyController.OverlapIgnoresStatus | src/controllers/occupancy.controller.ts:52-65 | Licence status and cancellation do not affect whether a licence is counted. |
| OccupancyController.TouchingStaysOverlap | src/controllers/occupancy.controller.ts:55-63 | A licence checking out on the queried check-in day is counted, because both ends are inclusive. |
| OccupancyController.BookingNeverFreesRooms | src/controllers/occupancy.controller.ts:52-69 | One more licence never raises availability and lowers it by at most one. |
| OccupancyController.AvailabilityExtremes | src/controllers/occupancy.controller.ts:69 | With no overlapping licence all rooms are available. With at least as many overlapping licences as rooms, none is. |
| AdminAccess.Decide | src/middlewares/verify-admin-access.middleware.ts:17-49 | The request passes exactly when the role is bot, or a membership exists and the user is a super admin or a property admin. A failed lookup for a non-bot gives 500. Every other refusal is 401. |
| AdminAccess.BotNeedsNoLookup | src/middlewares/verify-admin-access.middleware.ts:17-18 | A bot passes whatever the lookup would give. |
| AdminAccess.NoMembershipIsUnauthorized | src/middlewares/verify-admin-access.middleware.ts:20-28 | Without a membership, every non-bot is refused with 401, a super admin included. |
| AdminAccess.SuperAdminWithMembershipPasses | src/middlewares/verify-admin-access.middleware.ts:30-33 | A super admin with any membership passes. |
| AdminAccess.MemberPassesIffAdmin | src/middlewares/verify-admin-access.middleware.ts:30-45 | For other users, property admin passes and any other property role gets 401. |
| ProfileController.IndividualConditions | src/controllers/profile.controller.ts:100-127 | The list holds exactly one condition per truthy parameter, with its value, and none for absent ones. Conditions are ordered email, id, first name, last name, phone. The list is empty exactly when no parameter was given. |
| ProfileController.ConditionsImplySearch | src/controllers/profile.controller.ts:105-127 | A profile meeting every built condition matches the search as stated on its parameters. |
| ProfileController.SearchImpliesConditions | src/controllers/profile.controller.ts:105-127 | A profile matching the search meets every built condition. |
| ProfileController.SelectIndividuals | src/controllers/profile.controller.ts:100-103 | The result is exactly the profiles of the property that meet every condition. |
| ProfileController.CompanyFilter | src/controllers/profile.controller.ts:233-249 | The filter always names the property. Each other key is set exactly when its parameter is truthy, with its value. The id key additionally needs a well-formed ObjectId. |
| ProfileController.SentFilter | src/controllers/profile.controller.ts:258 | Under `strictQuery` the property key, which the company schema does not declare, is stripped. Otherwise the filter is sent as built. Every other key is kept. |
| ProfileController.SelectCompanies | src/controllers/profile.controller.ts:258 | The result is exactly the stored companies meeting the filter. A company document has no property path, so a filter that still names a property matches no company. |
| ProfileController.NothingMatchesScopedFilter | src/controllers/profile.controller.ts:233-258 | A filter that still names a property finds no company at all. |
| ProfileController.AppendKeepsUnique | src/models/individual-profile.model.ts:47-53 | Adding a profile with a new id and a new email keeps ids and emails unique. |
| ProfileController.ProfileStore.CreateIndividual | src/controllers/profile.controller.ts:20-47 | 401 comes exactly when the schema refuses the input. 409 comes exactly when the normalised email is already used in the same property. 201 comes exactly when the email is new everywhere, the id is new and no required string is empty, and the profile is then appended. Anything else is 500 with nothing written. Emails stay unique. |
| ProfileController.ProfileStore.StoreIndividual | src/controllers/profile.controller.ts:29-47 | For a form that passed the schema: 409 comes exactly when the email is already used in the same property. 201 comes exactly when the email is new everywhere, the id is new and no required string is empty, and the profile built from the form, the property and the creator is then appended. Anything else is 500 with nothing written. Emails stay unique. |
| ProfileController.ProfileStore.FindIndividuals | src/controllers/profile.controller.ts:97-139 | 400 comes exactly when no parameter was given. Otherwise the answer is 200 with exactly the property's profiles that match every given parameter. |
| ProfileController.ProfileStore.FindCompanies | src/controllers/profile.controller.ts:230-260 | 400 comes exactly when no key beyond the property was set, including when the only parameter was a malformed id. Otherwise the answer is 200. Without `strictQuery` it finds nothing. With it, it finds exactly the companies, of any property, that match every given parameter. |
| Js.Trim | src/schemas/tax.schema.ts:4 | The result has no surrounding whitespace, and every character dropped before or after it is whitespace. |
| Js.TrimSlice | src/schemas/tax.schema.ts:4 | The trimmed text is the contiguous middle of the input that follows the leading whitespace. |
| Js.TrimIdempotent | src/schemas/profiles.schema.ts:4-5 | Trimming a second time changes nothing. |
| Js.TrimEmptyIffBlank | src/schemas/tax.schema.ts:4 | Trimming gives the empty text exactly when every character is whitespace. |
| Js.TrimUpperIdempotent | src/schemas/room-type.schema.ts:9-13 | Trimming and upper-casing a second time changes nothing. |
| Js.TrimLowerIdempotent | src/schemas/room-type.schema.ts:4-8 | Trimming and lower-casing a second time changes nothing. |
| Js.NumeralValue | src/schemas/tax.schema.ts:5-8 | Trimmed text has a value exactly when it is empty or an optionally signed non-empty digit run. Empty text is 0, a run after `-` is negated, and any other run is its decimal value. |
| Js.StringToNumber | src/schemas/tax.schema.ts:5-8 | Text coerces to a number exactly when its trimmed form is blank or an optionally signed run of digits. Blank text is 0, and a run is its decimal value, negated after `-`. Any other text is NaN. |
| Js.NumeralNumber | src/schemas/tax.schema.ts:5-8 | A run of digits coerces to its value, and the same run after a minus sign to its negation. |
| Js.NumberOfIntText | src/schemas/tax.schema.ts:5-8 | Coercing an integer's numeral gives that integer back. |
| Js.ToNumber | src/schemas/tax.schema.ts:5-8 | `Number(v)`: a number is itself, null is 0, a boolean is 1 or 0, and a string is read as `StringToNumber` does. Undefined and arrays are NaN. |
| Zod.Texts | src/schemas/room-type.schema.ts:17 | A list of texts is accepted exactly when every element is a string, and each is kept in place. |
| TaxSchema.Categories | src/schemas/tax.schema.ts:10 | A list is accepted exactly when every element is `Room`, `Meal Plan` or `Other`, and each is kept in place. |
| TaxSchema.ParseTax | src/schemas/tax.schema.ts:3-12 | The form is accepted exactly when the name has a character as received, the coerced percentage lies in [0, 100], and the categories form a non-empty list of known values. The name is then trimmed. |
| TaxSchema.PercentageFromText | src/schemas/tax.schema.ts:5-8 | A percentage sent as text is accepted exactly from 0 to 100 and is kept. |
| TaxSchema.BlankNameAccepted | src/schemas/tax.schema.ts:4 | A name of blanks passes and is stored empty. |
| TaxSchema.EmptyCategoriesOrNoPercentageRefused | src/schemas/tax.schema.ts:5-11 | An empty category list is refused, and so is a missing percentage. |
| RoomTypeSchema.ParseRoomType | src/schemas/room-type.schema.ts:3-20 | Acceptance requires a name and code of at least one character, a base price of at least 0 (0 when absent), an occupancy of at least 1, and optional text and lists. The name is stored trimmed and lower case, the code trimmed and upper case. |
| RoomTypeSchema.ResubmitNormal | src/schemas/room-type.schema.ts:3-20 | A form already in normal form is accepted and read back unchanged. |
| RoomTypeSchema.ResubmitRoomType | src/schemas/room-type.schema.ts:4-13 | Resubmitting a stored room type whose stored name and code are non-blank gives the same form: normalisation is idempotent. A name or code of blanks is stored as "" and a resubmitted "" is refused by `min(1)`, so those are excluded. |
| RoomTypeSchema.BlankRoomTypeNameAccepted | src/schemas/room-type.schema.ts:4-8 | A blank name passes and is stored empty, and the base price defaults to 0. |
| RoomSchema.ParseRoom | src/schemas/room.schema.ts:3-10 | Acceptance requires a room number of at least one character (then trimmed) and a room type id of exactly 24 hexadecimal digits. Availability defaults to true and floor is optional. |
| RoomSchema.ObjectIdTextAccepted | src/schemas/room.schema.ts:5-7 | The hexadecimal text of any 12-byte id passes the check, in lower case and in upper case. |
| RoomSchema.MalformedIdRefused | src/schemas/room.schema.ts:5-7 | An id of 23 or 25 digits, or one holding a non-hexadecimal character, is refused. |
| RoomSchema.AvailableByDefault | src/schemas/room.schema.ts:8-9 | A room sent without the flag is available and has no floor. |
| ProfilesSchema.ParseIndividual | src/schemas/profiles.schema.ts:3-52 | Acceptance requires first and last name of at least one character, an email, and a phone of 10 to 15 characters as received. Names and phone are trimmed, the email trimmed and lower case, and the profile is not suspended unless said. |
| ProfilesSchema.ParseCompany | src/schemas/profiles.schema.ts:54-96 | Acceptance requires name and code of at least one character, a contact email, and a phone of 10 to 15 characters. The code is stored trimmed and upper case, the email trimmed and lower case, and the profile is not suspended unless said. |
| ProfilesSchema.BlankPhoneAccepted | src/schemas/profiles.schema.ts:7-11 | Ten blanks pass the phone bound and are stored as an empty phone. |
| ProfilesSchema.ResubmitNormalCompany | src/schemas/profiles.schema.ts:54-96 | A company form in normal form is accepted and read back unchanged. |
| ProfilesSchema.ResubmitCompany | src/schemas/profiles.schema.ts:55-66 | Resubmitting a stored company gives the same form when its stored name and code are non-blank and its stored phone still has at least 10 characters. A phone that reaches `min(10)` only through surrounding blanks is stored shorter, and resubmitting it is refused. |
| AuthSchema.ParseRegister | src/schemas/auth.schema.ts:3-21 | Acceptance requires a name of at least 2 characters, a phone of at least 10 and a password of 8 to 30. The form keeps the text exactly as sent. |
| AuthSchema.ParseLogin | src/schemas/auth.schema.ts:23-35 | Acceptance requires an email and a password of 8 to 30 characters, kept as sent. |
| AuthSchema.RegisteredCanLogIn | src/schemas/auth.schema.ts:13-34 | Whoever could register can log in with the same email and password. |
| MealPlanSchema.ParseMealPlan | src/schemas/MealPlanFormSchema.ts:3-16 | Acceptance requires name and code of at least one character and a coerced price of at least 0 (0 when absent). The name is stored lower case and the code upper case, both trimmed. |
| MealPlanSchema.ResubmitMealPlan | src/schemas/MealPlanFormSchema.ts:3-16 | Resubmitting a stored meal plan with its price as text gives the same form, when its stored name and code are non-blank. A name or code of blanks is stored as "" and a resubmitted "" is refused by `min(1)`. |
| MealPlanSchema.EmptyPriceIsZero | src/schemas/MealPlanFormSchema.ts:14 | An empty or null price coerces to 0 and is accepted. |
| MealPlanSchema.BadPriceRefused | src/schemas/MealPlanFormSchema.ts:14 | Non-numeric text and a negative price are refused. |

## Left out

- The licence cancel, check-in, check-out and room assign/unassign handlers are not part of this model. The routes import them, but their bodies are not among the source files.
- `Reservation.create` is not given the check-in and check-out dates, although the reservation schema marks both required (src/models/reservation.model.ts:49-56). That validation failure is not modelled, and the reservation is assumed to be stored.
- FindCompanies: the Mongoose version is not part of the sources, and `src/config/db.ts` sets no `strictQuery`. The setting is therefore a parameter, and the contract states both outcomes.
- PaymentService.Amended: an absent `notes` keeps the stored notes, which assumes the store drops undefined keys from a `$set`, as Mongoose does from version 6 on. Older versions would write null instead. The version is not part of the sources.
- `$push: { payments }` targets a path the reservation schema does not declare. Whether it persists depends on the store's strict mode. The model assumes it persists.
- Concurrency is not modelled: licence creation is treated as sequential, and so is the check-then-insert duplicate lookup.
- JavaScript numbers are not modelled:
  - no NaN, no fractions, no number text beyond an optionally signed run of decimal digits;
  - `Number` of an array is treated as NaN;
  - a request line always carries a base rate, tax and discount, so the NaN total of a line without a discount is not modelled.
- `new Date(...)` is not modelled: dates are given as day numbers.
- String lengths count characters, not UTF-16 code units, and case mapping and trimming are ASCII only.
- ObjectId casting is not modelled: ids are opaque text compared by equality. A malformed id that the store would refuse with a cast error (500) gets the answer an unknown well-formed id gets. `Types.ObjectId.isValid` is modelled as "24 hexadecimal digits".
- Store and transaction internals are replaced by an injected `StoreFault`: sessions, indexes other than the unique email index of individual profiles, timestamps and `populate`. Generated ids are parameters, and an insert under an id in use fails like a duplicate key.
- `UpdatePayment` does not re-check the payment-method enum, because a filtered update runs no schema validators by default.
- The enum files (payment methods, licence statuses, roles) are not part of this model:
  - payment methods are the ledger's `methods` set;
  - licence statuses are the four values not started, started, closed and cancelled;
  - roles the middleware does not name are `OtherGlobalRole` / `OtherPropertyRole`.
- `AdminAccess.Decide` works on the result of the membership lookup. The lookup filters on `propertyRef`/`userRef`, while the user-property model names its fields `propertyId`/`userId`; how the store answers that filter is outside the model.
- ProfileController.ContainsIgnoringCase: name filters are regular expressions in the source. They are modelled as case-insensitive substring search, which agrees only for patterns without regular-expression metacharacters.
- Search values are cast by the profile schema's setters (trim, lower case) before comparison, as the store does. Saving a profile applies the same setters, which change nothing on already-normalised forms, so they are not applied again.
- These fields and checks are not modelled, because they are library-backed or have nothing to state:
  - email and URL formats;
  - `Date.parse` refinements (any text is accepted as a date);
  - the nested address, verification, GST and contact-person objects;
  - `preferences`.
- The update handlers for profiles, and the other create, read and update handlers (rooms, room types, meal plans, taxes, facilities, properties, auth), are not part of this model.
- Logging and the response bodies' messages are not modelled. So is the missing `return` after the 404s: only the first response counts.
