# User management: a Dafny model of its deterministic core

The application is a Next.js user-management system. Users are registered and edited through a form with sub-lists of addresses, e-mails and telephones. Records are kept in sync between the form, the REST API, the database and Auth0. A paged data grid lists them, route guards and permission rules protect them, and a side bar navigates between pages. The repository also holds a small Python console that chats with a local language model.

This project models the logic underneath the UI and I/O:

- the CPF and telephone input masks;
- the record mappers between the form, API, Auth0 and database shapes, including the `+CC (SS) N-N` telephone parser and its inverse;
- the relation diff that decides which addresses, e-mails and telephones are created, updated or deleted;
- the validators: the custom schema tests, the plain rule checks and the search-route parameter checks;
- the Redux form slice, the per-form context reducer and the back-navigation stack;
- both sub-form list editors, the registration form's helpers and the generic form wrapper;
- the data grid's helpers and handlers, and the sub-form cell formatter;
- the page gate, the API route guards and the permission decision;
- the crop box of the photo picker;
- both side bars;
- the console chat loop.

Each source file becomes one module; the module comment at the top of each `.dfy` file names the file it models. `js.dfy` and `js_array.dfy` hold the shared JavaScript semantics:
- values and truthiness;
- `||` and `??`;
- `String()`, `parseInt`, `Number()` and `trim`;
- `/\D/` filtering;
- array writes that leave holes, and `splice` with a negative start.

`src/businnes/indivisibleRules/userRules.js:200-220` defines a second `mapAuth0UserToDbUser` whose body is the same as the one at `src/businnes/mappers/userMapper.js:8-27`. `UserMapper.MapAuth0UserToDbUser` models both; its row cites the mapper's copy.

The form follows the code:
- Pure code is modelled as functions, each with lemmas about it.
- State that the source updates in place is a class whose methods say the whole new state. This covers the Redux slice, the navigation stack, the sub-form editors, the grid, the photo picker, the side bars and the guarded request.
- Loops in the source are loops here, each proved against a specification function: `findItemById`, `checkPermission`, `composeMiddlewares`, the URL parameter building, the password draw and the chat loop.

The database, the network, the clock, `Math.random`, the Yup engine and the language model are not simulated. They are parameters that return the answer they would give (an oracle).

The console means to remove the user's input from the generated text (the comment at llm-local/run_mistral.py:41). The code slices `len(user_input)` characters off unconditionally, without checking that the text starts with the input. The model follows the code (`Repl.Reply`, `Repl.PrefixNotChecked`).

## Model

| member | source | states |
|---|---|---|
| GeneralRules.CpfDigits | src/businnes/indivisibleRules/generalRules.js:3-4 | the CPF mask keeps the input's digits, in order, cut to the first eleven |
| GeneralRules.CpfMaskLayout | src/businnes/indivisibleRules/generalRules.js:1-8 | the three replaces lay the kept digits out as `DDD.DDD.DDD-DD` as far as there are digits: a dot after each full triple followed by another digit, a hyphen before the last one or two digits after nine |
| GeneralRules.ApplyCpfMask | src/businnes/indivisibleRules/generalRules.js:1-8 | `applyCPFMask`: drop the non-digits, keep the first eleven, then the two leftmost "DDD followed by a digit" dot inserts and the hyphen before a final one or two digits after three more; what it produces is stated by CpfMaskLayout and the lemmas below |
| GeneralRules.CpfLayout | src/businnes/indivisibleRules/generalRules.js:5-7 | the `DDD.DDD.DDD-DD` layout by number of digits: up to three bare, a dot after the first triple from four, after the second from seven, the hyphen from ten |
| GeneralRules.CpfMaskKeepsDigits | src/businnes/indivisibleRules/generalRules.js:2-7 | the digits of the mask's output are exactly the kept digits: only "." and "-" are inserted |
| GeneralRules.CpfMaskIdempotent | src/businnes/indivisibleRules/generalRules.js:2-7 | masking an already masked CPF gives it back unchanged |
| GeneralRules.CpfMaskElevenDigits | src/businnes/indivisibleRules/generalRules.js:5-7 | input with at least eleven digits gives text matching the CPF pattern `^\d{3}\.\d{3}\.\d{3}-\d{2}$` |
| GeneralRules.CpfMaskShort | src/businnes/indivisibleRules/generalRules.js:3-7 | three or fewer digits come back bare |
| GeneralRules.NationalDigits | src/businnes/indivisibleRules/generalRules.js:12-21 | the telephone mask keeps only digits, at most eleven of them |
| GeneralRules.ApplyTelephoneMask | src/businnes/indivisibleRules/generalRules.js:10-56 | the step-by-step reassignment of `digits` and `formatted` yields the layout of the kept digits: "" for none, "+55 (" and one or two digits, then "+55 (AB) " with the rest, hyphenated after four (at most ten kept) or five (eleven kept) |
| GeneralRules.TelephoneLayoutDigits | src/businnes/indivisibleRules/generalRules.js:24-53 | the digits of a non-empty masked telephone are "55" followed by the kept digits |
| GeneralRules.TelephoneLayout | src/businnes/indivisibleRules/generalRules.js:24-53 | the telephone layout by number of kept digits: "" for none, "+55 (" and the digits for one or two, otherwise "+55 (AB) " and the rest, hyphenated after four digits (landline) or five (eleven kept, mobile) when more follow |
| GeneralRules.TelephoneMaskIdempotent | src/businnes/indivisibleRules/generalRules.js:12-24 | re-masking a masked telephone changes nothing, because the emitted "55" is stripped again |
| GeneralRules.TelephoneMaskEmpty | src/businnes/indivisibleRules/generalRules.js:24 | no kept digits give "" |
| GeneralRules.TelephoneMaskPartialArea | src/businnes/indivisibleRules/generalRules.js:30-33 | one or two kept digits give "+55 (" and those digits, without the closing parenthesis |
| GeneralRules.TelephoneMaskFullNumbers | src/businnes/indivisibleRules/generalRules.js:27-53 | ten kept digits give `+55 (AB) CDEF-GHIJ`, eleven give `+55 (AB) CDEFG-HIJK`, and both pass the schema's phone test |
| FrontUserMapper.ParseTelephone | src/frontend/businnes/mappers/userMapper.js:17-32 | a string parses iff it has the shape `+CC (SS) N{4,5}-NNNN`; then the three integers are the decimal values of the country, state and hyphen-free number digits and `full_number` is those digits joined; any other value gives null |
| FrontUserMapper.MapFormPhone | src/frontend/businnes/mappers/userMapper.js:35-53 | a telephone keeps `is_main` and `type`, a falsy id becomes undefined, and the four number fields are the parsed ones or all null when the string does not parse |
| FrontUserMapper.MapFormEmail | src/frontend/businnes/mappers/userMapper.js:58-63 | an email keeps its text and flags; a falsy id becomes undefined |
| FrontUserMapper.ParseIntOrNull | src/frontend/businnes/mappers/userMapper.js:69 | a falsy zip code becomes null; a nonzero number comes back unchanged; a string of digits, or a minus sign and digits, gives the value of its leading digit run with the sign applied once; a sign with no digit after it gives NaN |
| FrontUserMapper.ParseDecimalOrNull | src/frontend/businnes/mappers/userMapper.js:71 | a falsy address number becomes null; a nonzero number comes back unchanged; digits, or a minus sign and digits, give the signed value of the leading digit run; a sign with no digit after it gives NaN |
| FrontUserMapper.ZipCodeSignExamples | src/frontend/businnes/mappers/userMapper.js:69 | the zip code "-5" gives -5 and "+-5" gives NaN |
| Js.SignedDigitRun | src/frontend/businnes/mappers/userMapper.js:69 | NaN exactly when no digit leads the text; otherwise the value of the leading digit run with the sign applied |
| Js.ParseIntDecimal | src/frontend/businnes/mappers/userMapper.js:71 | `parseInt(s, 10)`: leading digits give the value of the longest digit run; one leading sign is applied once; a sign with no digit after it, or any other leading character that is not a blank, gives NaN |
| Js.ParseIntAuto | src/frontend/businnes/mappers/userMapper.js:69 | `parseInt(s)`: as base 10, except that a leading `0x`/`0X` reads the longest hexadecimal run, and NaN when no hexadecimal digit follows it |
| Js.ParseIntSkipsBlank | src/frontend/businnes/mappers/userMapper.js:69 | a leading blank is skipped by both forms |
| Js.ParseIntNegativeExample | src/frontend/businnes/mappers/userMapper.js:69 | `parseInt("-5")` is -5 in both forms |
| Js.ParseIntSignTwiceExample | src/frontend/businnes/mappers/userMapper.js:69 | `parseInt("+-5")` and `parseInt("- 5")` are NaN in both forms |
| Js.ParseIntHexExample | src/frontend/businnes/mappers/userMapper.js:69 | `parseInt("-0x10")` is -16 |
| Js.NumeralParses | src/frontend/businnes/mappers/userMapper.js:69-71 | a decimal numeral parses to its value in both forms |
| Js.NegativeNumeralParses | src/frontend/businnes/mappers/userMapper.js:69-71 | a minus sign and a numeral parse to the negated value in both forms |
| Js.ParseIntOfNumber | src/frontend/businnes/mappers/userMapper.js:69-71 | `parseInt(String(n))` gives `n` back in both forms |
| FrontUserMapper.IsoOrNull | src/frontend/businnes/mappers/userMapper.js:81-83 | a falsy birth date becomes null; a truthy one becomes its ISO string, or the RangeError "Invalid time value" when the date is invalid |
| FrontUserMapper.MapFormAddress | src/frontend/businnes/mappers/userMapper.js:67-78 | an address keeps its text fields and `is_main`, a falsy id becomes undefined, and zip code and number go through `parseInt` as `ParseIntOrNull` and `ParseDecimalOrNull` state |
| FrontUserMapper.MapOptional | src/frontend/businnes/mappers/userMapper.js:34-67 | an absent list maps to undefined; a present one keeps its length and order, element by element |
| FrontUserMapper.OrNull | src/frontend/businnes/mappers/userMapper.js:87-93 | `x \|\| null`: a truthy value is kept, a falsy one becomes null |
| FrontUserMapper.MapFormUserToApiUser | src/frontend/businnes/mappers/userMapper.js:11-98 | throws "Invalid time value" exactly when a truthy birth date is invalid; otherwise the API user: `id` is `Number(id)` or null, name, nickname, picture, cpf and password map falsy to null, the birth date is converted only when truthy, and the three lists are mapped element-wise or left undefined |
| FrontUserMapper.DropEmptyItems | src/frontend/businnes/mappers/userMapper.js:108 | the filtered list holds exactly the non-null items with at least one key, and is no longer than the input |
| FrontUserMapper.DropEmptyItemsIsFilter | src/frontend/businnes/mappers/userMapper.js:107-113 | the cleaned list is exactly `filter(item => item && Object.keys(item).length > 0)` of the input: the kept items in their order, repeats included |
| FrontUserMapper.CleanList | src/frontend/businnes/mappers/userMapper.js:107-114 | a missing list becomes [], a present one is filtered |
| FrontUserMapper.CleanUserDataForForm | src/frontend/businnes/mappers/userMapper.js:105-115 | the other fields are kept and each of the three lists is cleaned |
| FrontUserMapper.DropEmptyItemsIdempotent | src/frontend/businnes/mappers/userMapper.js:105-115 | cleaning a cleaned list changes nothing |
| FrontUserMapper.MapApiPhone | src/frontend/businnes/mappers/userMapper.js:150-157 | a phone with a truthy `full_number` gets the text `+CC (SS) number`, others ""; `is_main` defaults to false and `type` to "Pessoal"; a falsy id becomes undefined |
| FrontUserMapper.MapApiEmail | src/frontend/businnes/mappers/userMapper.js:168-173 | email defaults to "", `is_main` to false and `email_verified` to null |
| FrontUserMapper.OrEmpty | src/frontend/businnes/mappers/userMapper.js:189-194 | `x \|\| ""`: a truthy value is kept, a falsy one becomes "" |
| FrontUserMapper.MapApiAddress | src/frontend/businnes/mappers/userMapper.js:184-197 | a truthy zip code becomes its string `padStart(8, "0")`: kept as it is at 8 characters or more, otherwise "0"s in front up to exactly 8; number becomes its string or ""; text fields default to "", country to "Brasil" and `is_main` to false |
| Js.PadStart | src/frontend/businnes/mappers/userMapper.js:187 | `padStart(n, c)`: a string of length n or more is kept; a shorter one gets exactly n minus its length copies of c in front of it |
| FrontUserMapper.ProcessPicture | src/frontend/businnes/mappers/userMapper.js:205-222 | no picture gives null; an http URL is kept; a relative path is prefixed with the base URL (default "http://localhost:3000") and the uploads path, adding "/" only when the path lacks one; a File is passed through |
| FrontUserMapper.MapOrEmpty | src/frontend/businnes/mappers/userMapper.js:147-184 | a missing list maps to [], a present one element-wise with its length and order kept |
| FrontUserMapper.MapApiUserToFormUser | src/frontend/businnes/mappers/userMapper.js:122-235 | null gives null; otherwise id is copied, name, nickname and cpf default to "", the birth date is formatted only when truthy, the picture is processed and the three lists are mapped |
| FrontUserMapper.ParsePhoneText | src/frontend/businnes/mappers/userMapper.js:17-32 | the text `+CC (SS) NNNN(N)-NNNN` built from two-digit codes and an 8- or 9-digit number parses back to their decimal values |
| FrontUserMapper.TelephoneRoundTrip | src/frontend/businnes/mappers/userMapper.js:17-32 | for two-digit country and state codes and an 8- or 9-digit number, parsing the text built at line 153 recovers the original three integers, and mapping it back to the API shape restores them |
| UserMapper.MapAuth0UserToDbUser | src/businnes/mappers/userMapper.js:8-27 | the DB user keeps `sub`, maps falsy name, nickname and picture to null, has empty telephone and address lists, and has exactly one main email exactly when the profile has an email |
| UserMapper.Auth0EmailNeverUnverified | src/businnes/mappers/userMapper.js:20 | `email_verified \|\| true` is never false |
| UserMapper.ListOrEmpty | src/businnes/mappers/userMapper.js:46-62 | `list \|\| []` |
| UserMapper.MapFormUserToAuth0User | src/businnes/mappers/userMapper.js:34-67 | a `sub` starting with "auth0\|" puts nickname, name, picture and `updated_at` at top level and the rest in `user_metadata`; any other string or a missing `sub` puts everything in `user_metadata`; the lists default to []; a `sub` that is neither a string nor nullish throws |
| UserMapper.Auth0ProfileSentOnce | src/businnes/mappers/userMapper.js:35-65 | in either branch the profile fields are sent exactly once |
| UserMapper.SentProfile | src/businnes/mappers/userMapper.js:37-65 | where the profile fields end up in the Auth0 payload: at the top level for an "auth0\|" user, inside `user_metadata` otherwise |
| UserMapper.MapFormUserToDbUser | src/businnes/mappers/userMapper.js:74-155 | throws "Invalid time value" exactly when a truthy birth date is invalid; otherwise the DB user keeps `sub`, maps falsy scalars to null, and maps each present list element-wise with the same telephone parse and defaults as the client mapper |
| UserMapper.DbUserAgreesWithApiUser | src/businnes/mappers/userMapper.js:74-155 | the server mapper throws exactly when the client's `mapFormUserToApiUser` does, and otherwise agrees with it on every shared field |
| UserMapper.InvalidBirthDateThrows | src/businnes/mappers/userMapper.js:139-141 | an invalid truthy birth date makes both mappers throw "Invalid time value" |
| UserMapper.UnparsedTelephoneKeepsIdentity | src/businnes/mappers/userMapper.js:95-104 | a telephone that does not parse keeps id, `is_main` and type and gets null number fields |
| UserRules.CreateUser | src/businnes/indivisibleRules/userRules.js:12-23 | the create payload keeps sub, name, nickname, picture and the three lists, sets `updated_at`, and passes no birth date or cpf |
| UserRules.IncomingIds | src/businnes/indivisibleRules/userRules.js:58-59 | `getIds`: exactly the truthy ids of the incoming items; none for an absent list |
| UserRules.IdsToDelete | src/businnes/indivisibleRules/userRules.js:64-84 | exactly the stored ids that are not among the incoming ids |
| UserRules.SplitByIdMembers | src/businnes/indivisibleRules/userRules.js:67-86 | the items with a falsy (or truthy) id, and no others |
| UserRules.SplitById | src/businnes/indivisibleRules/userRules.js:67-68 | the items whose id has the asked truthiness (`filter(e => !e.id)` or `filter(e => e.id)`), in order, never more than the input |
| UserRules.SplitByIdIsFilter | src/businnes/indivisibleRules/userRules.js:67-68 | each part is exactly the order-keeping `filter` of the input on the id's truthiness, repeats included |
| UserRules.ToCreate | src/businnes/indivisibleRules/userRules.js:67-85 | items to create are exactly the incoming items with a falsy id; none when the list is absent |
| UserRules.ToUpdate | src/businnes/indivisibleRules/userRules.js:68-86 | items to update are exactly the incoming items with a truthy id, whether or not that id is stored |
| UserRules.SplitByIdPartition | src/businnes/indivisibleRules/userRules.js:67-68 | the create and update lists together are the incoming list, as a multiset: every item lands in exactly one |
| UserRules.SplitByIdKeepsOrder | src/businnes/indivisibleRules/userRules.js:67-68 | each of the two lists keeps the input order |
| UserRules.NonEmpty | src/businnes/indivisibleRules/userRules.js:96-107 | an empty list becomes undefined and a non-empty one is kept |
| UserRules.RelationUpdate | src/businnes/indivisibleRules/userRules.js:61-68 | `deleteMany` is undefined iff every stored id is sent again and otherwise holds exactly the unsent stored ids; `create` holds the id-less items without their id, `update` the others as `{where: {id}, data}`, each undefined when empty |
| UserRules.DeleteOps | src/businnes/indivisibleRules/userRules.js:96-99 | undefined iff every stored id is kept; otherwise exactly the stored ids that are not kept |
| UserRules.CreateOps | src/businnes/indivisibleRules/userRules.js:100-107 | undefined iff every incoming item has a truthy id; otherwise the written fields of each id-less item, in order |
| UserRules.UpdateOps | src/businnes/indivisibleRules/userRules.js:108-119 | undefined iff no incoming item has a truthy id; otherwise `{where: {id}, data}` for each item with one, in order |
| UserRules.UnknownIdIsUpdated | src/businnes/indivisibleRules/userRules.js:68-86 | an incoming item whose truthy id is not stored is still sent as an update and not deleted |
| UserRules.EmailData | src/businnes/indivisibleRules/userRules.js:102-116 | the email payload is the email without its id |
| UserRules.PhoneData | src/businnes/indivisibleRules/userRules.js:127-147 | the telephone payload carries `country_code`, `state_code`, `number`, `full_number`, `type` and `is_main` of the telephone, and no id |
| UserRules.PhoneDataIgnoresId | src/businnes/indivisibleRules/userRules.js:127-147 | two telephones give the same payload exactly when they differ at most in their id |
| UserRules.AddressData | src/businnes/indivisibleRules/userRules.js:158-184 | the address payload carries `zip_code`, `street`, `number`, `complement`, `district`, `city`, `state`, `country` and `is_main` of the address, and no id |
| UserRules.AddressDataIgnoresId | src/businnes/indivisibleRules/userRules.js:158-184 | two addresses give the same payload exactly when they differ at most in their id |
| UserRules.SyncEmails | src/businnes/indivisibleRules/userRules.js:45-54 | the sync creates one email per sent email, `is_main` and `email_verified` defaulting to false, and nothing for an absent or empty list |
| UserRules.FullUpdatePlan | src/businnes/indivisibleRules/userRules.js:57-188 | the normal update copies the scalar fields, sets `updated_at`, and diffs each of the three relations |
| UserRules.UpdateUser | src/businnes/indivisibleRules/userRules.js:25-193 | no stored user throws "Usuário não encontrado para atualização"; the Auth0 sync sends only name, nickname, picture, `updated_at` and created emails; otherwise the full plan |
| UserRules.SyncNeverDeletes | src/businnes/indivisibleRules/userRules.js:38-55 | the Auth0 sync never deletes or updates a row and leaves telephones and addresses alone |
| UserRules.MapFormAddress | src/businnes/indivisibleRules/userRules.js:275-286 | this file's address mapping passes `zip_code` through and differs from the client mapper in nothing else |
| UserRules.MapFormUserToDbUser | src/businnes/indivisibleRules/userRules.js:222-307 | throws "Invalid time value" exactly when a truthy birth date is invalid; otherwise addresses are mapped element-wise with this file's mapping |
| UserRules.MapFormUserToDbUserKeepsZip | src/businnes/indivisibleRules/userRules.js:277-279 | this mapper throws exactly when the other server mapper does, and otherwise equals it except that each address keeps its raw `zip_code`; `number` is parsed in both |
| UserService.CreateUser | src/services/userService.js:15-24 | the Auth0 sync maps with `mapAuth0UserToDbUser`, otherwise with `mapFormUserToDbUser`, whose invalid-date error it passes on |
| UserService.FindEmail | src/services/userService.js:40-52 | the index of the first stored email `===` the sent one, or none exactly when no stored email matches |
| UserService.SyncEmailData | src/services/userService.js:54-67 | the synced email is main, with `email_verified` defaulting to false |
| UserService.UpdateUser | src/services/userService.js:26-209 | no stored user throws "Usuário não encontrado para atualização"; the Auth0 sync updates the first stored email equal to the sent one, making it main, and creates exactly one email when none is equal; the normal branch uses the same partition as the user rules |
| UserService.CreateOrUpdateUser | src/services/userService.js:215-222 | with one user and one `isAuth0Sync` flag for both paths: no user found by `sub` creates it with the Auth0 or the form mapper as the flag says, and the form mapper's "Invalid time value" error is passed on; a found user is updated with the Auth0 sync or the full update as the same flag says |
| UserService.CreateRequestOf | src/services/userService.js:15-21 | the Auth0 flag makes `createUser` read the profile, otherwise the form fields |
| UserService.UpdateRequestOf | src/services/userService.js:39-71 | the Auth0 flag makes `updateUser` read the profile, otherwise the full record |
| UserService.SyncPathsAgree | src/services/userService.js:215-222 | with the Auth0 flag, the created user and the update both carry the profile's `sub` |
| UserService.WithVerifiedFlag | src/services/userService.js:239-242 | each fetched email keeps its keys and gets `email_verified ?? false` |
| UserService.WithMaskedTelephone | src/services/userService.js:245-248 | each fetched telephone keeps its keys and gets the masked `full_number` as `telephone` |
| UserService.VerifiedEmails | src/services/userService.js:238-243 | no e-mail list gives [], otherwise each e-mail, in order, with its flag defaulted |
| UserService.MaskedTelephones | src/services/userService.js:244-249 | no telephone list gives []; the list fails exactly when the mask throws on some telephone's `full_number`; otherwise each telephone, in order, with its masked number |
| UserService.FetchUserData | src/services/userService.js:225-257 | `isFetched` is set on success and failure; `setUserData` runs exactly when the request succeeds and nothing inside the `try` throws (a truthy non-string `sub`, an invalid birth date for `toISOString`, a telephone the mask throws on); the user data defaults the scalars to "", non-array lists to [], and `connection` is the `sub` text before the first "\|", or null |
| UserService.UnmaskableTelephoneSkipsRecord | src/services/userService.js:244-255 | a telephone whose `full_number` the mask throws on (the null number of an unparsed telephone) skips `setUserData` for the whole record, and `isFetched` is still set |
| UserService.ConnectionIsProvider | src/services/userService.js:250 | for `sub` = provider + "\|" + rest, when nothing else in the `try` throws, the record is set and its connection is the provider |
| UserRepository.StoredIds | src/backend/repositories/userRepository.js:172 | the ids of the stored rows, as a set |
| UserRepository.IncomingIds | src/backend/repositories/userRepository.js:173-177 | exactly the ids of the incoming items that are neither undefined nor null |
| UserRepository.WithoutId | src/backend/repositories/userRepository.js:188-201 | the item with its id key removed and every other key kept |
| UserRepository.CreateSelection | src/backend/repositories/userRepository.js:179-185 | exactly the incoming items whose id is nullish or not stored |
| UserRepository.UpdateSelection | src/backend/repositories/userRepository.js:192-198 | exactly the incoming items whose non-nullish id is stored |
| UserRepository.DeleteSelection | src/backend/repositories/userRepository.js:208-209 | exactly the stored rows whose id is not among the incoming ids |
| UserRepository.NonEmpty | src/backend/repositories/userRepository.js:214-216 | an operation list is kept only when it is non-empty |
| UserRepository.PrepareRelationDiff | src/backend/repositories/userRepository.js:167-219 | `create` holds the create selection without ids, `update` the update selection as `{where: {id}, data}`, `delete` the delete selection as `{id}`, each omitted when empty, and the result is undefined exactly when all three are empty |
| UserRepository.DiffPartitionsIncoming | src/backend/repositories/userRepository.js:179-206 | every incoming item lands in exactly one of create and update (multiset union) |
| UserRepository.DiffKeepsOrder | src/backend/repositories/userRepository.js:179-206 | create and update keep the input order |
| UserRepository.CreatesWhatIsNotStored | src/backend/repositories/userRepository.js:179-190 | an item with a nullish or unknown id is created, without its id |
| UserRepository.UpdatesWhatIsStored | src/backend/repositories/userRepository.js:192-210 | an item whose id is stored is updated and that row is not deleted |
| UserRepository.DeletesWhatIsNotSent | src/backend/repositories/userRepository.js:208-210 | a stored row whose id no incoming item carries is deleted |
| UserRepository.BuildBaseUpdate | src/backend/repositories/userRepository.js:245-254 | filling the base object field by field copies exactly the base fields that are not undefined, maps a falsy birth date to null, and always sets `updated_at` |
| UserRepository.RelationDiffFor | src/backend/repositories/userRepository.js:257-266 | a relation is diffed only when the data carries it |
| UserRepository.Rethrow | src/backend/repositories/userRepository.js:287-298 | an error mentioning "não encontrado" is rethrown unchanged; any other gets the "Falha ao atualizar usuário no banco de dados. Causa: " prefix |
| UserRepository.NotFoundPassesThrough | src/backend/repositories/userRepository.js:241-291 | the not-found error thrown inside the `try` reaches the caller unchanged, not wrapped |
| UserRepository.DbUpdateUser | src/backend/repositories/userRepository.js:227-299 | a missing user fails with "Usuário com ID … não encontrado."; otherwise the payload is the base update plus the relation diffs of the relations present, and the update's outcome passes through the rethrow rule |
| UserChecks.EnsurePrimaryEmailExists | src/businnes/rules/userRules.js:1-7 | throws "É necessário um email principal" exactly when no email has `is_main` (a missing list included), and otherwise returns the same user |
| UserChecks.ValidateUserData | src/businnes/rules/userRules.js:9-17 | a falsy name throws "Nome é obrigatório" before the email check; a missing or empty email list throws "Pelo menos um email é necessário"; otherwise the user comes back unchanged |
| UserChecks.PrimaryEmailImpliesEmailList | src/businnes/rules/userRules.js:1-17 | a named user that passes the primary-email check passes `validateUserData` |
| UserSchema.PictureTestsSpec | src/shared/businnes/schemas/userSchema.js:8-25 | null and undefined fail the type test; a string passes iff it is non-blank after trim; a File passes iff it is jpeg, png or gif; the size test rejects only Files above 2·1024·1024 bytes |
| UserSchema.PictureTypeTest | src/shared/businnes/schemas/userSchema.js:8-19 | the "is-valid-type" test: a string passes when its trim is non-empty, a File when its type is JPEG, PNG or GIF, anything else fails |
| UserSchema.PictureSizeTest | src/shared/businnes/schemas/userSchema.js:20-25 | the "fileSize" test: a File passes at 2 MB or less, and every other value passes |
| UserSchema.PhoneTestsExamples | src/shared/businnes/schemas/userSchema.js:93-101 | both `+55 (DD) DDDD-DDDD` and `+55 (DD) DDDDD-DDDD` pass, a number without its hyphen or with another country code fails, and the type list is case-sensitive |
| UserSchema.PhoneFormatTest | src/shared/businnes/schemas/userSchema.js:93-97 | the "phone-format" test on `String(value)`: the whole text is `+55 (DD) DDDD-DDDD` or `+55 (DD) DDDDD-DDDD` |
| UserSchema.PhoneTypeTest | src/shared/businnes/schemas/userSchema.js:98-101 | the telephone type is undefined, "Pessoal" or "Profissional", compared case-sensitively |
| UserSchema.PhoneFormatShape | src/shared/businnes/schemas/userSchema.js:93-97 | a passing value has 18 or 19 characters, starts "+55 (" and ends with "-" and four digits |
| UserSchema.OneMainTestEmptyFails | src/shared/businnes/schemas/userSchema.js:64-69 | an absent or empty list fails the "one main" test |
| UserSchema.OneMainTestSpec | src/shared/businnes/schemas/userSchema.js:64-69 | a list with an item marked `is_main` passes it |
| UserSchema.OneMainTest | src/shared/businnes/schemas/userSchema.js:64-69 | the "one-main-…" test (the same for addresses, e-mails and telephones): a non-empty list with some truthy `is_main` passes, an absent or empty one fails |
| UserSchema.FirstLine | src/shared/businnes/schemas/userSchema.js:35 | the reach of `.*` in the lookaheads: the prefix before the first line terminator |
| UserSchema.FirstLineWhole | src/shared/businnes/schemas/userSchema.js:35 | text without a line terminator is all within reach of each `.*` lookahead |
| UserSchema.PasswordRulesSpec | src/shared/businnes/schemas/userSchema.js:28-37 | a create-mode password that passes has at least 8 UTF-16 code units, a lowercase letter, an uppercase letter, a digit and one of `@$!%*?&`, and its first character is in `[A-Za-z\d@$!%*?&]` |
| UserSchema.PasswordPattern | src/shared/businnes/schemas/userSchema.js:34-37 | the password regex: each of the four lookaheads finds its class before the first line break, and the first character is one of `[A-Za-z\d@$!%*?&]` (no `$`, so the rest is free) |
| UserSchema.PasswordValid | src/shared/businnes/schemas/userSchema.js:28-39 | in create mode the password is a non-empty string of at least 8 UTF-16 code units matching the regex; outside create mode anything passes |
| UserSchema.AstralCharactersCountTwice | src/shared/businnes/schemas/userSchema.js:33 | `min(8)` counts UTF-16 code units: "Aa1@" and two emoji, six characters, pass |
| Js.Utf16Length | src/shared/businnes/schemas/userSchema.js:33 | a string's JavaScript `length`: at least its number of characters and at most twice it, equal to it when no character lies above U+FFFF |
| Js.Utf16LengthOfBmp | src/shared/businnes/schemas/userSchema.js:33 | for text without characters above U+FFFF the JavaScript `length` is the number of characters |
| UserSchema.PasswordOptionalOutsideCreateMode | src/shared/businnes/schemas/userSchema.js:38-46 | outside create mode every password and confirmation pass |
| UserSchema.ConfirmationMustEqual | src/shared/businnes/schemas/userSchema.js:40-45 | in create mode a passing confirmation is non-empty and equals the password |
| UserSchema.ConfirmationValid | src/shared/businnes/schemas/userSchema.js:40-47 | in create mode the confirmation is a non-empty string equal to the password; outside create mode anything passes |
| JsArray.SetAt | src/lib/features/user/userFormSlice.js:59-82 | `xs[index] = v` replaces an in-range element only; past the end it extends the array with holes; a negative index leaves the elements alone |
| JsArray.SpliceStart | src/lib/features/user/userFormSlice.js:63-65 | the start `splice` uses: a negative start counts from the end, clamped to the array |
| JsArray.SpliceOne | src/lib/features/user/userFormSlice.js:63-85 | `splice(start, 1)` drops exactly the element at the resolved start, or nothing when it is past the end |
| JsArray.SpliceOneRemovesIndex | src/lib/features/user/userFormSlice.js:63-65 | for an in-range index the result is one shorter, earlier elements stay, later ones shift left, and only that element is lost (as a multiset) |
| JsArray.SpliceOneEdges | src/lib/features/user/userFormSlice.js:63-65 | index -1 removes the last element; an index past the end removes nothing |
| JsArray.AddThenRemoveLast | src/lib/features/user/userFormSlice.js:56-65 | adding an item then removing the last index restores the list |
| JsArray.SetAtInRange | src/lib/features/user/userFormSlice.js:59-62 | an in-range write keeps the length and every other element |
| UserFormSlice.InitialState | src/lib/features/user/userFormSlice.js:3-21 | empty form fields (a null picture) and lists, mode "create", `isFetched` and `isSubmitting` false, null `formId` and preview, no errors |
| UserFormSlice.Merge | src/lib/features/user/userFormSlice.js:28 | the object spread: the payload's keys win, keys absent from it keep their values |
| UserFormSlice.UserFormSlice.constructor | src/lib/features/user/userFormSlice.js:3-25 | the store starts in the initial state |
| UserFormSlice.UserFormSlice.SetFormData | src/lib/features/user/userFormSlice.js:27-29 | shallow-merges the payload into `formData`; nothing else changes |
| UserFormSlice.UserFormSlice.SetPreviewImage | src/lib/features/user/userFormSlice.js:30-32 | changes only `previewImage` |
| UserFormSlice.UserFormSlice.SetMode | src/lib/features/user/userFormSlice.js:33-35 | changes only `mode` |
| UserFormSlice.UserFormSlice.SetIsFetched | src/lib/features/user/userFormSlice.js:36-38 | changes only `isFetched` |
| UserFormSlice.UserFormSlice.SetIsSubmitting | src/lib/features/user/userFormSlice.js:39-41 | changes only `isSubmitting` |
| UserFormSlice.UserFormSlice.SetFormId | src/lib/features/user/userFormSlice.js:42-44 | changes only `formId` |
| UserFormSlice.UserFormSlice.SetErrors | src/lib/features/user/userFormSlice.js:45-47 | changes only `errors` |
| UserFormSlice.UserFormSlice.ResetForm | src/lib/features/user/userFormSlice.js:48-54 | the initial state with `formId` = payload.formId \|\| null and `mode` = payload.mode \|\| "create" |
| UserFormSlice.UserFormSlice.AddAddress | src/lib/features/user/userFormSlice.js:56-58 | appends to the addresses; the other lists and fields are untouched |
| UserFormSlice.UserFormSlice.UpdateAddress | src/lib/features/user/userFormSlice.js:59-62 | writes the address at the index and nothing else |
| UserFormSlice.UserFormSlice.RemoveAddress | src/lib/features/user/userFormSlice.js:63-65 | splices one address out and nothing else |
| UserFormSlice.UserFormSlice.AddEmail | src/lib/features/user/userFormSlice.js:66-68 | appends to the emails only |
| UserFormSlice.UserFormSlice.UpdateEmail | src/lib/features/user/userFormSlice.js:69-72 | writes the email at the index only |
| UserFormSlice.UserFormSlice.RemoveEmail | src/lib/features/user/userFormSlice.js:73-75 | splices one email out only |
| UserFormSlice.UserFormSlice.AddTelephone | src/lib/features/user/userFormSlice.js:76-78 | appends to the telephones only |
| UserFormSlice.UserFormSlice.UpdateTelephone | src/lib/features/user/userFormSlice.js:79-82 | writes the telephone at the index only |
| UserFormSlice.UserFormSlice.RemoveTelephone | src/lib/features/user/userFormSlice.js:83-85 | splices one telephone out only |
| FormContext.EntryOf | src/contexts/FormContext.js:14-36 | `...state.forms[formId]`: the form's entry, or no keys for an unknown form |
| FormContext.SetField | src/contexts/FormContext.js:8-40 | setting one key of one form creates the entry if needed, keeps every other key of it and every other form |
| FormContext.ResetEntry | src/contexts/FormContext.js:46-50 | the reset entry has exactly mode (`mode \|\| "create"`), `isFetched` false and the token (`initialToken \|\| null`) |
| FormContext.FormReducer | src/contexts/FormContext.js:6-60 | each action changes only its field of its form; `RESET_FORM` replaces the entry; `REMOVE_FORM` deletes only that key; an unknown action returns the state |
| FormContext.ActionForm | src/contexts/FormContext.js:6-60 | every action but an unknown one names a form |
| FormContext.ReducerTouchesOnlyItsForm | src/contexts/FormContext.js:6-60 | no action adds, removes or changes a form other than its own |
| FormContext.RemoveUndoesEntry | src/contexts/FormContext.js:8-56 | an action on a form that did not exist, followed by `REMOVE_FORM` of it, gives back the original state |
| FormContext.Lookup | src/contexts/FormContext.js:116-119 | `forms[formId]?.key`: undefined for an unknown form |
| FormContext.UseFormState | src/contexts/FormContext.js:100-126 | outside a provider it throws; otherwise mode defaults to "create", `isFetched` to false, and the token falls back to `initialToken` and then null |
| FormContext.UnknownFormDefaults | src/contexts/FormContext.js:115-120 | an unknown form shows the defaults |
| FormContext.ResetThenView | src/contexts/FormContext.js:41-52 | after `RESET_FORM` the hook shows the reset mode, `isFetched` false and the initial token or null |
| NavigationStack.Top | src/hooks/useNavigationStack.js:19-21 | the last URL, or "/" for an empty stack |
| NavigationStack.PushSpec | src/hooks/useNavigationStack.js:10-15 | a push appends the URL iff it is non-empty and differs from the top |
| NavigationStack.PopSpec | src/hooks/useNavigationStack.js:16-18 | a pop removes the last URL; on an empty stack it changes nothing |
| NavigationStack.PushKeepsNoAdjacentDuplicates | src/hooks/useNavigationStack.js:12 | push and pop keep the stack free of two equal adjacent URLs |
| NavigationStack.PushesNeverDuplicate | src/hooks/useNavigationStack.js:10-15 | any sequence of pushes keeps it free of adjacent duplicates |
| NavigationStack.PushAll | src/hooks/useNavigationStack.js:10-15 | the stack after pushing a list of URLs one by one, each push skipping an empty URL or one equal to the top; never longer than the stack plus the URLs |
| NavigationStack.PushThenPop | src/hooks/useNavigationStack.js:10-19 | popping right after an effective push restores the stack and its top |
| NavigationStack.UrlStack.constructor | src/hooks/useNavigationStack.js:8 | the stack read from storage |
| NavigationStack.UrlStack.ManageUrlStack | src/hooks/useNavigationStack.js:7-22 | push, pop or any other action change the stack as specified, and the returned value is the new top or "/" |
| NavigationStack.UrlStack.PushToStack | src/hooks/useNavigationStack.js:29-35 | the referrer (default "/") is pushed unless it equals the current path |
| NavigationStack.UrlStack.GoBack | src/hooks/useNavigationStack.js:38-41 | pops and navigates to exactly the value the pop returns: the URL below the old top, or "/" |
| FrontSubForm.DefaultFor | src/frontend/components/form/subForm/SubForm.js:51-58 | select → the first option's value (a select without options throws), date → null, checkbox → false, anything else → "" |
| FrontSubForm.DefaultValues | src/frontend/components/form/subForm/SubForm.js:48-61 | the reduce yields `id` and `is_main` plus one key per field name; it throws exactly when some select has no options |
| FrontSubForm.DefaultValuesLastWins | src/frontend/components/form/subForm/SubForm.js:48-61 | a field's default is the value under its name unless a later field has the same name |
| FrontSubForm.DefaultValuesSeeds | src/frontend/components/form/subForm/SubForm.js:48-61 | `id` is null and `is_main` false unless a field of that name overrides them |
| FrontSubForm.ErrorMap | src/frontend/components/form/subForm/SubForm.js:145-148 | one key per error path and no other |
| FrontSubForm.ErrorMapLastWins | src/frontend/components/form/subForm/SubForm.js:145-148 | the message kept for a path is the last error's for that path |
| FrontSubForm.MainToggled | src/frontend/components/form/subForm/SubForm.js:346-352 | the updated list has the same length and every item gets an `is_main` key |
| FrontSubForm.MainToggledSpec | src/frontend/components/form/subForm/SubForm.js:346-352 | at most one item is main afterwards, the target's flag is flipped, and every other key of every item is kept |
| FrontSubForm.FieldInputValue | src/frontend/components/form/subForm/SubForm.js:231-236 | a checkbox gives its checked state, a number field the input's digits only, any other field the raw input |
| FrontSubForm.NumberFieldFilterIdempotent | src/frontend/components/form/subForm/SubForm.js:235 | filtering a number field's input twice is the same as once |
| FrontSubForm.ErrorsAfterCheck | src/frontend/components/form/subForm/SubForm.js:84-123 | a field absent from the schema leaves the errors; otherwise only its key changes: "" when valid, the message (or "Campo … inválido" when empty) when invalid, "Erro inesperado na validação" for any other error |
| FrontSubForm.SetPath | src/frontend/components/form/subForm/SubForm.js:239-241 | `setValue(name.index.key, v)`: the entry at a non-negative index, created when undefined, gets `v` under `key` and keeps its other keys; every other entry is kept and any new gap is a hole |
| FrontSubForm.SetPathThenGet | src/frontend/components/form/subForm/SubForm.js:239-245 | reading the path back gives the value written, and any other key reads as before |
| FrontSubForm.UpdatedInTurn | src/frontend/components/form/subForm/SubForm.js:352 | after `update(idx, item)` for each toggled item in turn, the first entries of the form's values are the toggled list and any further ones are kept |
| FrontSubForm.SubForm.constructor | src/frontend/components/form/subForm/SubForm.js:28-37 | the field array's `fields` and the form's values both hold the initial entries; closed, no edit index, empty temporary data and errors |
| FrontSubForm.SubForm.ResetForm | src/frontend/components/form/subForm/SubForm.js:39-44 | `isOpen` false, `editIndex` null, `tempData` {} and `tempErrors` {}; the field array and the form's values, including what was typed, are kept |
| FrontSubForm.SubForm.HandleAdd | src/frontend/components/form/subForm/SubForm.js:46-65 | loads the defaults, clears the errors and opens the form; when the defaults throw only the edit index has been cleared; nothing else changes |
| FrontSubForm.SubForm.HandleEdit | src/frontend/components/form/subForm/SubForm.js:67-76 | sets the edit index, closes the add form, loads `getValues(name.index)` from the form's values (undefined for a missing entry) and clears the errors |
| FrontSubForm.SubForm.HandleSave | src/frontend/components/form/subForm/SubForm.js:169-192 | an invalid save only records the errors; a valid one writes the entry at a non-null index, or appends a copy, in both the field array and the form's values, then resets the editor |
| FrontSubForm.SubForm.HandleMainCheckboxChange | src/frontend/components/form/subForm/SubForm.js:335-352 | an out-of-range index changes nothing; otherwise the field array becomes the main-toggled list, and the form's values get it written over their first entries in turn |
| FrontSubForm.SubForm.HandleFieldChange | src/frontend/components/form/subForm/SubForm.js:229-254 | a change without a field `onChange` stores the filtered value in the temporary data, writes it into the form's values at the edited entry (or at `name.temp` in the add form), and records that field's validation outcome; the field array is not touched |
| FrontSubForm.TypedValueOutlivesReset | src/frontend/components/form/subForm/SubForm.js:39-76 | edit an entry, type into a field, reset and edit it again: the editor loads the typed value, and the field array still shows the saved entry |
| OldSubForm.FreshFormData | src/components/form/subForm/SubForm.js:24-29 | "" for every field, plus `id` = the clock reading and `is_main` false unless a field of that name overrides them |
| OldSubForm.ReplaceAt | src/components/form/subForm/SubForm.js:94-96 | the item at the index is replaced, every other kept, the length unchanged |
| OldSubForm.RemoveIndex | src/components/form/subForm/SubForm.js:139 | `filter((_, i) => i !== index)`: exactly that index is removed and the order is kept; an out-of-range index removes nothing |
| OldSubForm.RemoveIndexMultiset | src/components/form/subForm/SubForm.js:139 | only the item at the index is lost |
| OldSubForm.MainToggle | src/components/form/subForm/SubForm.js:148-151 | same length, every item gets an `is_main` key |
| OldSubForm.MainToggleSpec | src/components/form/subForm/SubForm.js:146-156 | only the target can be main afterwards, its flag is flipped, and every other key is kept |
| OldSubForm.ErrorsAfterValidateAt | src/components/form/subForm/SubForm.js:34-50 | a pass deletes the field's key, a validation error sets its message, any other error leaves the errors alone |
| OldSubForm.GridColumnWidths | src/components/form/subForm/SubForm.js:248-260 | "grid-cols-1" for no fields, otherwise one "1fr" per field, then "40px" and "80px" |
| OldSubForm.ColumnWidth | src/components/form/subForm/SubForm.js:253-258 | one column of `calcularLarguraColunas`: "40px" for the second-to-last, "80px" for the last, "1fr" for the others |
| OldSubForm.ColumnsJoin | src/components/form/subForm/SubForm.js:250-259 | joining the column array with spaces gives n × "1fr " followed by "40px 80px" |
| OldSubForm.SubForm.constructor | src/components/form/subForm/SubForm.js:22-31 | the items are the initial data or [], the form is closed with fresh data, no errors and no edit index |
| OldSubForm.SubForm.ValidateField | src/components/form/subForm/SubForm.js:34-50 | only the errors change, as the validation outcome says |
| OldSubForm.SubForm.HandleChange | src/components/form/subForm/SubForm.js:52-67 | stores the checked state, the file's object URL or the raw value under the field's name, and validates every input but a file |
| OldSubForm.SubForm.ResetFormForNewEntry | src/components/form/subForm/SubForm.js:75-85 | fresh data, no errors, no edit index, open |
| OldSubForm.SubForm.ResetForm | src/components/form/subForm/SubForm.js:158-168 | fresh data, no errors, no edit index, closed |
| OldSubForm.SubForm.HandleSave | src/components/form/subForm/SubForm.js:87-116 | an invalid save records path → message errors and keeps the items; a valid one replaces the item at the edit index or appends, hands the new list to `onSave` and opens a fresh entry |
| OldSubForm.SubForm.HandleEdit | src/components/form/subForm/SubForm.js:128-135 | sets the edit index, loads a copy of that item ({} out of range) and opens the form |
| OldSubForm.SubForm.HandleRemove | src/components/form/subForm/SubForm.js:137-144 | the items lose exactly that index, and `onSave` receives the result |
| OldSubForm.SubForm.HandleMainToggle | src/components/form/subForm/SubForm.js:146-156 | the items become the main-toggled list, and `onSave` receives it |
| UserForm.Drawn | src/components/user/form/UserForm.js:255-260 | one character of the alphabet per draw |
| UserForm.EnsureUpper | src/components/user/form/UserForm.js:261-263 | a password with an upper-case letter is kept; otherwise its first character is replaced by "A" |
| UserForm.EnsureDigit | src/components/user/form/UserForm.js:264-266 | a password with a digit is kept; otherwise its last character is replaced by "1" |
| UserForm.FixPassword | src/components/user/form/UserForm.js:261-267 | the password returned always contains a digit |
| UserForm.GenerateDefaultPassword | src/components/user/form/UserForm.js:254-268 | the loop builds the drawn password, whose fixed form has twelve characters and a digit |
| UserForm.FixPasswordUpper | src/components/user/form/UserForm.js:261-267 | the result lacks an upper-case letter exactly when the only upper-case letter drawn was the last character and no digit was drawn, so the digit fix overwrote it |
| UserForm.MainItemMessage | src/components/user/form/UserForm.js:172-178 | the "Pelo menos um … deve ser marcado como principal" message names the address, e-mail or telephone list |
| UserForm.ErrorsAfterMainCheck | src/components/user/form/UserForm.js:167-184 | the field has an error iff no item has a truthy `is_main`, with that field's message; every other error is kept |
| UserForm.AdjustItem | src/components/user/form/UserForm.js:233-243 | same keys; for addresses a truthy `zip_code` and `number` become numbers and the rest is kept; other lists are unchanged |
| UserForm.AdjustItems | src/components/user/form/UserForm.js:233-244 | every item is adjusted, in order |
| UserForm.AdjustKeepsMain | src/components/user/form/UserForm.js:233-248 | the adjustment does not change whether some item is main |
| UserForm.UserFormState.constructor | src/components/user/form/UserForm.js:231-251 | the sublists as given and no errors |
| UserForm.UserFormState.CheckMainItems | src/components/user/form/UserForm.js:167-184 | only the errors change, as the main-item check of the field's list says |
| UserForm.UserFormState.HandleContextSave | src/components/user/form/UserForm.js:231-251 | the field's list becomes the adjusted items, and the main-item check runs on them |
| UserForm.UserFormState.ValidateField | src/components/user/form/UserForm.js:140-162 | a pass deletes the field's error; a failure merges path → message for every failure that does not mention "principal" |
| UserForm.NonPrincipal | src/components/user/form/UserForm.js:154-158 | exactly the failures whose message does not contain "principal" |
| UserForm.MergeErrors | src/components/user/form/UserForm.js:159 | `{ ...prev, ...errorMap }`: the union of keys, with the new messages winning |
| UserForm.PrincipalErrorsDiscarded | src/components/user/form/UserForm.js:154-159 | failures that all mention "principal" leave the errors as they were |
| UserForm.PrimaryEmail | src/components/user/form/UserForm.js:274 | the `email` of the first item whose `is_main` is truthy, or undefined when there is none |
| UserForm.FirstMainExists | src/components/user/form/UserForm.js:274 | when some item is main, `find` has a first main item to return |
| UserForm.FirstMainWithoutAddressFails | src/components/user/form/UserForm.js:274-275 | with two main items of which the first has an empty e-mail, `find` returns the first and the creation fails |
| UserForm.CreateAuth0Payload | src/components/user/form/UserForm.js:274-286 | an error "E-mail principal é necessário" exactly when the first main item's e-mail is falsy (or no item is main); otherwise the payload carries that e-mail, the password, name, nickname, picture, the database connection and `email_verified` false |
| FormComponent.CollectData | src/components/form/Form.js:12-14 | a key for exactly the names of the valid, named children |
| FormComponent.CollectDataLast | src/components/form/Form.js:12-14 | the last child with a name decides its entry: its value, or "" when that value is falsy |
| FormComponent.CollectErrors | src/components/form/Form.js:15-17 | an error for exactly the names of required children whose value is falsy, each message the "<label> é obrigatório." of such a child |
| FormComponent.CollectErrorsLast | src/components/form/Form.js:12-19 | the message under a name is that of the last required child with the name whose value is falsy: the `forEach` overwrites earlier ones, and a later filled child does not clear it |
| FormComponent.UnnamedIgnored | src/components/form/Form.js:13 | a child without a name adds neither data nor an error |
| FormComponent.Form.constructor | src/components/form/Form.js:5 | no errors |
| FormComponent.Form.HandleSubmit | src/components/form/Form.js:7-27 | with no errors the collected data are submitted and the errors cleared; otherwise nothing is submitted and the errors are shown |
| DataGrid.GridTelephoneMaskLayout | src/frontend/components/dataGridComponent/DataGridComponent.js:73-81 | a falsy value gives ""; under ten digits they are kept; exactly ten give "(DD) DDDD-DDDD"; eleven or more give "(DD) DDDDD-DDDD" followed by the rest of the digits |
| DataGrid.GridTelephoneMask | src/frontend/components/dataGridComponent/DataGridComponent.js:73-81 | the grid's telephone mask: "" for a falsy value, otherwise the digits of `String(value)` with the first run of ten (at most ten digits) or eleven (more) grouped as `(AB) …-…` |
| DataGrid.GroupPhone | src/frontend/components/dataGridComponent/DataGridComponent.js:77-79 | the single `replace`: at the leftmost run of 6 + a digits, "(", two digits, ") ", a digits, "-", four digits; text without such a run is kept |
| DataGrid.PictureUrl | src/frontend/components/dataGridComponent/DataGridComponent.js:82-94 | null for a non-string or blank path; an http(s) path is returned as is; otherwise null without a base URL, else the base URL joined to the path by exactly one "/" |
| DataGrid.ExtraParams | src/frontend/components/dataGridComponent/DataGridComponent.js:321-325 | at most one parameter per extra entry |
| DataGrid.ExtraParamsMembers | src/frontend/components/dataGridComponent/DataGridComponent.js:321-325 | a pair is sent iff some entry has that key and a value that is not undefined, null or "" and converts to that string |
| DataGrid.ExtraParamsAppend | src/frontend/components/dataGridComponent/DataGridComponent.js:321-325 | the extra entries are appended in the order given, one at a time |
| DataGrid.BaseParams | src/frontend/components/dataGridComponent/DataGridComponent.js:306-320 | startIndex = page × rows, endIndex = startIndex + rows, sort and order; "group" only in grid mode with a grouping field; "search" last with the trimmed filter when it is not blank |
| DataGrid.FetchParams | src/frontend/components/dataGridComponent/DataGridComponent.js:306-325 | the query string's parameters are the base parameters followed by the sendable extra ones |
| DataGrid.AppendExtra | src/frontend/components/dataGridComponent/DataGridComponent.js:321-325 | the loop appends exactly the sendable extra pairs, in order, after what was there |
| DataGrid.ExtraParamsStep | src/frontend/components/dataGridComponent/DataGridComponent.js:321-325 | one more entry adds its own pair at the end when its value is sendable, and nothing otherwise |
| DataGrid.TotalCount | src/frontend/components/dataGridComponent/DataGridComponent.js:346-357 | the first of meta.totalCount, totalCount and meta.pagination.total that is not null or undefined, if it is a non-negative number, and 0 otherwise |
| DataGrid.PageAfterFetch | src/frontend/components/dataGridComponent/DataGridComponent.js:358-361 | a page after the first whose start index reaches the total goes back to 0; any other page is kept, so a later page that survives starts before the total |
| DataGrid.KnownIds | src/frontend/components/dataGridComponent/DataGridComponent.js:228-230 | exactly the saved column ids that name a column, never more than were saved |
| DataGrid.KnownIdsIsFilter | src/frontend/components/dataGridComponent/DataGridComponent.js:228-230 | the known ids are exactly `filter(id => initialColumnDefs.some(c => c.id === id))` of the saved ids: saved order and repeats kept |
| DataGrid.LoadConfig | src/frontend/components/dataGridComponent/DataGridComponent.js:215-246 | without a parsable saved configuration the defaults; otherwise each saved field or its default, and the known saved columns when there are any, else all columns; visible columns always name columns |
| DataGrid.FormatValue | src/frontend/components/dataGridComponent/DataGridComponent.js:519-579 | "-" for null, undefined or ""; String(value) without a column; a formatter's text wins; booleans as "Sim"/"Não"; telephones masked; dates and currency are left to the locale formatter |
| DataGrid.GridState.constructor | src/frontend/components/dataGridComponent/DataGridComponent.js:247-250 | the loaded sort and visible columns, page 0 |
| DataGrid.GridState.HandleSortRequest | src/frontend/components/dataGridComponent/DataGridComponent.js:408-418 | nothing changes while grouping in grid mode; otherwise page 0 and the field sorted, descending iff it was that field ascending, else ascending |
| DataGrid.GridState.HandleToggleColumnVisibility | src/frontend/components/dataGridComponent/DataGridComponent.js:458-465 | a fixed column is left alone; any other is removed if visible and appended if not |
| DataGrid.FixedColumnsUntouched | src/frontend/components/dataGridComponent/DataGridComponent.js:458-459 | no sequence of toggles changes whether a fixed column is visible |
| FormatCellDisplay.FindOption | src/frontend/components/form/subForm/shared/formatCellDisplay.js:18 | the index of the first option whose value is strictly equal to the cell's, or none when no option is |
| FormatCellDisplay.FormatCell | src/frontend/components/form/subForm/shared/formatCellDisplay.js:2-24 | "-" for null, undefined or ""; a truthy date is left to the locale formatter; a select with options shows the first matching option's label, else String(value); anything else String(value) |
| FormatCellDisplay.DateColumnSkipsOptions | src/frontend/components/form/subForm/shared/formatCellDisplay.js:7-20 | a date column never shows an option label, and a falsy date value that is not empty falls through to String(value) |
| SearchRoute.OrderOf | src/app/api/user/search/route.js:69-73 | "desc" iff the parameter is present and its lower-case form is "desc"; otherwise "asc" |
| SearchRoute.CheckRange | src/app/api/user/search/route.js:28-65 | the not-numbers, negative and empty-range errors in that order; accepted iff both indexes parse, are non-negative and start < end, giving those two values |
| SearchRoute.CheckSort | src/app/api/user/search/route.js:68-90 | the sort field ("id" by default) must be allowed, then a truthy secondary field must be too, each refusal naming the field; accepted values are allowed fields |
| SearchRoute.SearchTermOf | src/app/api/user/search/route.js:93 | the trimmed search parameter, or "" when it is absent |
| SearchRoute.BuildOptions | src/app/api/user/search/route.js:28-112 | the first failing check's message; otherwise skip = start, take = end − start > 0, the checked sort, the order, the search term, the three flags true iff the parameter is "true", and a secondary sort exactly when one was given |
| SearchRoute.MissingIndexRefused | src/app/api/user/search/route.js:28-41 | a request without either index is refused as not numbers |
| SearchRoute.Handler | src/app/api/user/search/route.js:22-145 | status 400 with the validation message; otherwise the service's data and total with status 200 and "Busca efetuada com sucesso!", or status 500 with its error or the default message |
| ConfirmUpload.StripLeadingSlashes | src/app/api/img/confirm-upload/route.js:36 | `^\/+`: only slashes are removed, the rest is a suffix that does not start with one |
| ConfirmUpload.StripTrailingSlashes | src/app/api/img/confirm-upload/route.js:36 | `\/+$`: only slashes are removed, the rest is a prefix that does not end with one |
| ConfirmUpload.NormalizePath | src/app/api/img/confirm-upload/route.js:36 | the normalised path neither starts nor ends with "/" |
| ConfirmUpload.DropUploadsPrefix | src/app/api/img/confirm-upload/route.js:37 | one leading "uploads/" is removed, and only that |
| ConfirmUpload.CleanPath | src/app/api/img/confirm-upload/route.js:36-37 | the clean path never ends with "/" |
| ConfirmUpload.Post | src/app/api/img/confirm-upload/route.js:3-58 | the missing-body, bad-JSON and missing-id answers with status 400; status 500 when the id is not a string; otherwise ok, status 200 and the URL "/uploads/" + the clean path |
| ConfirmUpload.NormalizeIdempotent | src/app/api/img/confirm-upload/route.js:36 | normalising twice is normalising once |
| ConfirmUpload.ReconfirmStable | src/app/api/img/confirm-upload/route.js:36-42 | confirming the URL returned for a non-empty clean path gives that path back |
| ConfirmUpload.EmptyPathNotStable | src/app/api/img/confirm-upload/route.js:36-42 | an id of only slashes gives "/uploads/", and confirming that gives "uploads" |
| Middleware.Decide | src/middleware.js:26-46 | a public path or a session passes; otherwise "/dashboard…" and "/user…" redirect to the login page, "/api…" is 401, anything else passes |
| Middleware.PublicAsWritten | src/middleware.js:12-23 | the public routes as the code compiles them: "/user/login", the literal "/user/register$", "/api/auth/" followed by text without a line break, and "/api/user/register", each as the whole path |
| Middleware.IsPublic | src/middleware.js:12-17 | the public routes as the comment on "/user/register$" reads them: the same, with "/user/register" itself public |
| Middleware.MiddlewareAsWritten | src/middleware.js:4-47 | `middleware` as written: the gate decision on the compiled public routes |
| Middleware.Middleware | src/middleware.js:4-47 | `middleware` with the intended public routes: the same gate decision |
| Middleware.RegisterPageNotPublicAsWritten | src/middleware.js:12-23 | with the "$" escaped, "/user/register" is not public and redirects without a session, while the literal "/user/register$" is public |
| Middleware.RegisterPagePublic | src/middleware.js:14-34 | with "$" read as the end of the path, "/user/register" passes without a session and every path under "/user/register/" still redirects |
| Middleware.AuthApiAlwaysPasses | src/middleware.js:15-28 | every "/api/auth/" path without a line break passes, in both readings |
| Middleware.ExactRoutesOnly | src/middleware.js:13-23 | the login page and the registration API are public only as exact paths |
| BackendMiddleware.Request.constructor | src/backend/middleware/midleware.js:21-27 | the request carries the session given |
| BackendMiddleware.Step | src/backend/middleware/midleware.js:21-51 | requireAuth answers 401 without a server session and otherwise attaches it; requirePermission throws without a session, passes admins and allowed users, and answers 403 to the rest, leaving the session alone |
| BackendMiddleware.ComposeSnoc | src/backend/middleware/midleware.js:8-17 | one more middleware runs only when every earlier one continued |
| BackendMiddleware.Compose | src/backend/middleware/midleware.js:8-17 | the middlewares run in order, each on the session the previous ones left, until one answers; that answer, or continue when all continued |
| BackendMiddleware.StopsAtFirstAnswer | src/backend/middleware/midleware.js:10-14 | after the first response, later middlewares do not run |
| BackendMiddleware.NullIffAllContinue | src/backend/middleware/midleware.js:10-16 | the chain returns null iff every middleware continued |
| BackendMiddleware.AuthThenPermissionNeverThrows | src/backend/middleware/midleware.js:21-35 | requireAuth followed by requirePermission never reaches the "requireAuth deve ser usado antes" error |
| BackendMiddleware.RunRequireAuth | src/backend/middleware/midleware.js:21-28 | the guard's outcome, and the request's session as the step says |
| BackendMiddleware.RunRequirePermission | src/backend/middleware/midleware.js:31-51 | the permission step's outcome, with the session unchanged |
| BackendMiddleware.ComposeMiddlewares | src/backend/middleware/midleware.js:8-17 | the loop's outcome and the request's final session are the composition's |
| AuthValidator.FirstDirect | src/backend/lib/authValidator.js:52-57 | the index of the first rule whose user_id is the user's, or none when no rule is direct |
| AuthValidator.Permission | src/backend/lib/authValidator.js:51-60 | the first direct rule's flag decides; without one, any rule that allows |
| AuthValidator.DirectDenialWins | src/backend/lib/authValidator.js:48-57 | a direct rule that denies wins over any role rule that allows |
| AuthValidator.CheckPermission | src/backend/lib/authValidator.js:11-65 | false for an unknown path or a failing query; otherwise the rule loop's decision |
| PhotoField.FileRejection | src/frontend/components/form/image/PhotoField.js:131-157 | a file is accepted iff it is JPEG, PNG, GIF or WebP and at most 2 MB; otherwise the too-large toast for an accepted type and "Formato inválido" for any other |
| PhotoField.InitialCrop | src/frontend/components/form/image/PhotoField.js:80-83 | a 128 × 128 box centred on the displayed image, inside it when the image is at least that big |
| PhotoField.Clamp | src/frontend/components/form/image/PhotoField.js:405-418 | `Math.max(0, Math.min(v, hi))`: never negative, at most the bound when that is non-negative, and the value itself when it already lies between |
| PhotoField.Drag | src/frontend/components/form/image/PhotoField.js:401-419 | the size is kept, x and y are the clamped pointer position, and a box no larger than the image stays inside it |
| PhotoField.HandleSize | src/frontend/components/form/image/PhotoField.js:446-453 | at least 128; otherwise within the wanted size and both room limits, and equal to their minimum when that is 128 or more |
| PhotoField.TopLeftResizeAsWritten | src/frontend/components/form/image/PhotoField.js:434-461 | a square of side at least 128 whose bottom-right corner stays fixed, bounded by the room right of and below the start |
| PhotoField.TopLeftLeavesImage | src/frontend/components/form/image/PhotoField.js:441-460 | a 128 box at (0, 0) in a 300 × 300 image, dragged by (−100, −100), ends at x = −100, outside the image |
| PhotoField.TopLeftResize | src/frontend/components/form/image/PhotoField.js:434-461 | the same square with its bottom-right corner fixed, bounded by the room left of and above that corner |
| PhotoField.TopLeftResizeStaysInside | src/frontend/components/form/image/PhotoField.js:434-461 | the corrected handle keeps a square box that starts inside the image inside it |
| PhotoField.TopRightResize | src/frontend/components/form/image/PhotoField.js:478-502 | x and y stay, the square grows by the larger delta, and it fits the image unless it is at the 128 minimum |
| PhotoField.BottomLeftResize | src/frontend/components/form/image/PhotoField.js:519-545 | a square of side at least 128 whose bottom-right corner stays where it was |
| PhotoField.BottomRightResize | src/frontend/components/form/image/PhotoField.js:562-585 | x and y stay, the square grows by the larger delta, within the room to the right and below when that room is at least 128 |
| PhotoField.BottomRightStaysInside | src/frontend/components/form/image/PhotoField.js:562-585 | a box inside an image with room for the minimum box stays inside after a bottom-right resize |
| PhotoField.PhotoFieldState.constructor | src/frontend/components/form/image/PhotoField.js:115-123 | the preview from a string default value, no original image, both modals closed and no crop box |
| PhotoField.PhotoFieldState.HandleImageChange | src/frontend/components/form/image/PhotoField.js:131-157 | no file changes nothing; a rejected file only yields its toast; an accepted one stores the data URL, opens the crop modal and closes the options modal |
| PhotoField.PhotoFieldState.InitializeCrop | src/frontend/components/form/image/PhotoField.js:78-83 | only the crop box changes, to the centred initial box |
| PhotoField.PhotoFieldState.MoveCrop | src/frontend/components/form/image/PhotoField.js:404-419 | only the crop box changes, to the dragged box |
| PhotoField.PhotoFieldState.ResizeCrop | src/frontend/components/form/image/PhotoField.js:434-585 | only the crop box changes, to the square the grabbed handle gives as written (the top-left one bounded by the room right of and below the start, so it can leave the image), of side at least 128 |
| PhotoField.PhotoFieldState.HandleClearImage | src/frontend/components/form/image/PhotoField.js:159-166 | no preview and a null form value, and nothing else changes |
| FrontSideBar.Preorder | src/frontend/components/sideBar/SideBar.js:113-122 | the search order: a non-empty list starts with its first item |
| FrontSideBar.PreorderAppend | src/frontend/components/sideBar/SideBar.js:113-122 | the order of two lists of trees is the first's followed by the second's |
| FrontSideBar.FirstWithId | src/frontend/components/sideBar/SideBar.js:114-115 | the first item with that id, or none iff no item has it |
| FrontSideBar.FirstWithIdIsFirst | src/frontend/components/sideBar/SideBar.js:114-115 | the item found sits at a position before which no item carries the id |
| FrontSideBar.FirstWithIdAppend | src/frontend/components/sideBar/SideBar.js:113-122 | over two lists, a match in the first wins, otherwise the second's |
| FrontSideBar.FindItemById | src/frontend/components/sideBar/SideBar.js:113-122 | the loop and its recursion return the first item with the id in pre-order, or null |
| FrontSideBar.PrefixDecides | src/frontend/components/sideBar/SideBar.js:114-119 | once a match is found in the first trees, later trees do not change the result |
| FrontSideBar.LeafEffect | src/frontend/components/sideBar/SideBar.js:175-197 | the route of each known leaf, the profile page only with a session user id, sign-out for "logout", nothing otherwise |
| FrontSideBar.SideBarState.constructor | src/frontend/components/sideBar/SideBar.js:127-132 | no slider, the bar open, no title or icon, nothing expanded |
| FrontSideBar.SideBarState.HandleResize | src/frontend/components/sideBar/SideBar.js:141-155 | the bar is open iff the width is at least 768; closing it clears the slider, title and icon |
| FrontSideBar.SideBarState.HandleMenuClick | src/frontend/components/sideBar/SideBar.js:161-166 | the bar closed and the slider cleared |
| FrontSideBar.SideBarState.HandleSubItemClick | src/frontend/components/sideBar/SideBar.js:167-204 | the item under the open menu: missing, nothing changes; with children, its expansion flips; a leaf yields its effect and clears the slider |
| FrontSideBar.Expanded | src/frontend/components/sideBar/SideBar.js:173 | `prev[itemId]` read as a flag: a missing key is undefined, so the item is collapsed until first toggled |
| FrontSideBar.SideBarState.HandleMenuItemMouseEnter | src/frontend/components/sideBar/SideBar.js:205-221 | with the bar open, that slider opens with "Configurações" for settings or the item's title and icon, and everything collapses; with the bar closed nothing changes |
| FrontSideBar.SideBarState.HandleSliderBarMouseLeave | src/frontend/components/sideBar/SideBar.js:222-226 | the slider, title and icon are cleared |
| FrontSideBar.SideBarState.HandleMenuItemMouseLeave | src/frontend/components/sideBar/SideBar.js:227-240 | moving into the slider keeps it; moving anywhere else clears the slider, title and icon |
| FrontSideBar.AllUsersRoute | src/frontend/components/sideBar/SideBar.js:41-48 | the application's "all_users" entry is found under "users" and routes to the user list |
| OldSideBar.SideBarState.constructor | src/components/sideBar/SideBar.js:83-86 | the bar state from the context, no slider, not hovering, no open sub-items |
| OldSideBar.SideBarState.ToggleSubItem | src/components/sideBar/SideBar.js:88-92 | the id is removed if open and appended if not, and nothing else changes |
| OldSideBar.SideBarState.ToggleSidebar | src/components/sideBar/SideBar.js:94-97 | the bar flips and the slider closes |
| OldSideBar.SideBarState.MenuItemMouseEnter | src/components/sideBar/SideBar.js:151-157 | an item with children opens its slider; any other closes it |
| OldSideBar.SideBarState.SubmenuMouseEnter | src/components/sideBar/SideBar.js:191 | hovering, and nothing else changes |
| OldSideBar.SideBarState.SubmenuMouseLeave | src/components/sideBar/SideBar.js:192-195 | not hovering and the slider closed |
| OldSideBar.FilterIsRemoveAll | src/components/sideBar/SideBar.js:90 | `filter((item) => item !== id)` removes every copy of the id and keeps the rest in order |
| Repl.Strip | llm-local/run_mistral.py:40-42 | the result is no longer and neither starts nor ends with white space |
| Repl.StripKeepsInterior | llm-local/run_mistral.py:40-42 | stripping keeps exactly the text between the surrounding white space |
| Repl.LowerChar | llm-local/run_mistral.py:35 | an ASCII upper-case letter becomes its lower-case form; any other character is kept |
| Repl.LowerAscii | llm-local/run_mistral.py:35 | same length, each character lowered |
| Repl.SentinelExamples | llm-local/run_mistral.py:35-37 | "sair" in any letter case ends the loop; with trailing text or a space it does not |
| Repl.IsSentinel | llm-local/run_mistral.py:36 | the line, lower-cased, is exactly "sair" |
| Repl.Reply | llm-local/run_mistral.py:40-42 | "" when the generated text is not longer than the input; otherwise the text after the first len(input) characters, stripped |
| Repl.PrefixNotChecked | llm-local/run_mistral.py:40-42 | the dropped prefix is not compared with the input |
| Repl.StopIndex | llm-local/run_mistral.py:34-43 | the first line that is the sentinel or gets no result ends the loop; every earlier line is neither |
| Repl.ChatLoop | llm-local/run_mistral.py:34-43 | one reply per line before the stop, each from the first result; the prompts sent are those lines, plus the stopping line when its result list was empty; and how the loop ended |
| Repl.NoPromptAfterSentinel | llm-local/run_mistral.py:35-37 | a sentinel preceded by answered lines is where the loop stops |
| Js.ToggleTwice | src/components/sideBar/SideBar.js:88-92 | toggling an id that is not open twice gives the list back |

## Left out

- Network, HTTP clients, Prisma, the filesystem and Auth0 calls: each call site takes the answer as a parameter, and the requests themselves are not modelled.
- Asynchrony and timing: `await` ordering, `debounce`, `FileReader` callbacks, `useEffect` scheduling and React's batching of state updates. A handler's updates are applied at once, in source order.
- Floating point: numbers are integers plus NaN. `Number()` and `parseInt` are modelled on decimal integers (and `parseInt`'s hexadecimal prefix). The crop geometry uses exact reals.
- Dates, locale and currency: `toLocaleDateString`, date-fns `format`, `toLocaleString` and `toISOString` are left to a formatter parameter. `DataGrid.FormatValue` and `FormatCellDisplay.FormatCell` return no text for those branches. The `toISOString` parameter of the form mappers may fail, and the mappers pass that failure on as the RangeError "Invalid time value". Which dates are invalid is left to the parameter.
- The `catch` paths that only log and return a constant ("Erro", "Erro Data", the grid's fetch error message). The search route's service failure and the permission check's query failures are modelled.
- PhotoField: the `Math.round` scaling of the natural image size (the displayed size is a parameter), the canvas drawing, the camera, `handleSaveCrop`'s blob conversion, and the `trigger(name)` re-validation after clearing.
- PhotoField.BottomLeftResize: modelled as written. It moves both x and y like the top-left handle and is bounded the same way, so it can also leave the image. No correction is stated, because the code does not show what the handle was meant to keep fixed.
- ConfirmUpload.Post: the 500 answer's `error` field is left out. It carries the engine's own TypeError message, whose text depends on the JavaScript engine.
- Middleware: `getToken` and the `config.matcher` list that decides which paths reach the gate. The model decides for any path.
- BackendMiddleware: `getServerSession` and `checkPermission` are parameters.
- The old sub-form's `fetchAddressByCep` lookup after a CEP change.
- The registration form's other handlers (`handleChange`, `handleCpfChange`, `handleTelephoneChange`, `fetchUserData`, submit and upload): they are async orchestration around the modelled helpers.
- FrontSubForm.SubForm.HandleFieldChange: a field with its own `onChange` callback is not modelled beyond leaving the temporary data to that callback.
- FrontSubForm.SubForm.HandleFieldChange: for a negative edit index `setValue` would write a non-element property of the list, which `getValues(name.index)` could read back; the model drops that write. The editor only ever edits an index taken from the rendered list, which is never negative.
- FrontSubForm.SubForm.HandleSave: react-hook-form's `update` and `append` are modelled as writing the same entry into the field array and the form's values. The library's own re-copying of the whole `fields` list from the values after such a call is not modelled, because react-hook-form is not part of this model.
- The Yup built-ins (`email()`, `date()`, `required`, `min`) are predicates or oracles; only the custom tests are modelled.
- Python `str.lower` is modelled on ASCII letters only; other letters are kept as they are.
- Repl: the model loading, tokenisation and sampling settings. The pipeline is a parameter from a prompt to its list of generated texts.
- JSX rendering, CSS class strings and the grid's Excel export.
- `localStorage`: the navigation stack's stored array is a class field, and the grid's saved configuration is a parameter.
- UserService.CreateOrUpdateUser: the one `user` object is read through three typed views: the Auth0 profile fields, the form fields and the database-shaped record. Both paths get the same views and the same flag, but the model does not state that the form fields and the record are read from the same keys of that object.
- UserService.FetchUserData: the telephone mask it imports comes from a rules module that is not part of this model, and `toISOString` is not modelled. Both are parameters that may throw.
- JavaScript string lengths: apart from the password's `min(8)` (counted in UTF-16 code units by `Js.Utf16Length`), `length`, `slice` and indices are taken over Unicode characters. Text with characters above U+FFFF, such as emoji, is shorter here than in JavaScript. Python's `len` counts characters as the model does.

## Findings

| source | as written | input that shows it | evidently intended | confidence | as-written member | corrected member |
|---|---|---|---|---|---|---|
| src/middleware.js:14-23 | `route.replace("$", "\\$")` escapes the "$" of "/user/register$", so that route matches only the literal path "/user/register$" | "/user/register" without a session is redirected to "/user/login" | the comment beside the route says "/user/register" itself is public and only the paths under it need a session | high, not executed | Middleware.RegisterPageNotPublicAsWritten | Middleware.RegisterPagePublic |
| src/frontend/components/form/image/PhotoField.js:441-460 | the top-left handle bounds the new size by `width - x` and `height - y`, the room right of and below the start, although the box grows up and to the left | a 128 × 128 box at (0, 0) in a 300 × 300 image dragged by (−100, −100) ends at x = −100 | the size is bounded by the room left of and above the fixed bottom-right corner, so the box stays inside the image | medium, not executed | PhotoField.TopLeftLeavesImage | PhotoField.TopLeftResizeStaysInside |
