# VkNetAsync core, modelled in Dafny

This project models the sequential core of VkNetAsync, a C# client for the
VK social network API, and proves what that core promises:

- **Enum registries.** `ExclusiveEnum<T>` is an append-only table of
  (value, name) members in which values and names are unique.
  `FilteredEnum<T>` is a bit-flag enum over a 64-bit `long`: its registered
  members are single bits. A raw value is accepted only when every set bit is
  registered. `|` combines filters, and `ToString` lists the names of the set
  bits in registration order. `Settings` is the fixed table of seventeen
  access rights, plus `All` and `AllOffline`.
- **`VkParameters`.** An insertion-ordered string map of request parameters.
  `Add` has conversion rules (null skipped, bool as `1`/`0`, enum as its
  number, `DateTime` as Unix time, empty text skipped). The class also has the
  indexer, `Remove`, `Count`, `ContainsKey`, and `ToString` as `k=v&k=v`.
- **`VkErrorConverter`.** The table from an API error code to an error kind.
- **Value objects.** `Captcha` (sid and image, with their invariant), `VkApi`
  (user id and token, with an unanchored token check), and `Authoriser`
  (`FromToken` with an anchored token check, and the `API` setter with its
  `Authorised` and `PropertyChanged` notifications).
- **`ManualAuthoriser`.** The argument checks of `Authorise`, the login page
  address, the login page check, the login body built from the form inputs,
  captcha resolution, the do/while login loop against a transport, the
  permissions form, and the reading of the final redirect address.
- **`DateTimeEx`.** Conversion between UTC `DateTime` ticks and Unix time.

Exceptions are the constructors of one `VkError` datatype. An operation that
throws returns `Err` (or `Fail`) with the error it would throw. A null
reference argument is an `Option`. `long` values are `int`s kept in the
64-bit range, and the enum values are `bv64`, so the two's-complement tricks
of `FilteredEnum` (`value & (value - 1)`, `1L << 63`, the wrapping `Sum`) are
exact. The objects the source mutates in place are classes:

- the member table of `ExclusiveEnum`, and the container of `FilteredEnum`;
- the dictionary of `VkParameters`;
- the session and event trace of `Authoriser`.

Their methods' `modifies` clauses and postconditions state the whole new
state. The HTML pages and the transport are outside the model:

- a page is what the HTML and JSON readers extract from it;
- the transport is a script of responses, handed out one per request, in
  order;
- the captcha resolver's answers and the address escaping of an answer are
  parameters.

## Model

| member | source | states |
|---|---|---|
| ExclusiveEnum.FindValue | VkNetAsync/API/VkTypes/Enums/ExclusiveEnum.cs:53-56 | the index found holds the value; no index found means no member has it |
| ExclusiveEnum.FindName | VkNetAsync/API/VkTypes/Enums/ExclusiveEnum.cs:58-61 | the index found holds the name; no index found means no member has it |
| ExclusiveEnum.Register | VkNetAsync/API/VkTypes/Enums/ExclusiveEnum.cs:48-66 | registration succeeds iff the name is non-null and non-empty and both value and name are new; then exactly one member is appended and the table stays well formed; otherwise, in the source's order of checks, ArgumentNull for a null name, Argument("name") for an empty one, Argument("value") for a taken value, Argument("name") for a taken name |
| ExclusiveEnum.EqualIsIdentity | VkNetAsync/API/VkTypes/Enums/ExclusiveEnum.cs:113-138 | in a table with unique values, two members are equal iff their values are equal |
| ExclusiveEnum.SameNameIsIdentity | VkNetAsync/API/VkTypes/Enums/ExclusiveEnum.cs:77-87 | in a table with unique names, two members with the same name are the same member |
| ExclusiveEnum.Registry.constructor | VkNetAsync/API/VkTypes/Enums/ExclusiveEnum.cs:41 | a new registry is empty and well formed |
| ExclusiveEnum.Registry.RegisterPossibleValue | VkNetAsync/API/VkTypes/Enums/ExclusiveEnum.cs:48-66 | a successful registration appends the member and returns what `FromValue(value)` then returns; a failed one changes nothing and returns the error; uniqueness of values and names is kept |
| ExclusiveEnum.Registry.FromValue | VkNetAsync/API/VkTypes/Enums/ExclusiveEnum.cs:68-75 | finds a member iff one has the value (any `long`); that member is the only one with it; otherwise ArgumentOutOfRange |
| ExclusiveEnum.Registry.FromName | VkNetAsync/API/VkTypes/Enums/ExclusiveEnum.cs:77-87 | null and empty names are refused; otherwise finds a member iff one has the name, the only one; otherwise ArgumentOutOfRange |
| FilteredEnum.RegisterFilter | VkNetAsync/API/VkTypes/Enums/FilteredEnum.cs:39-60 | registration succeeds iff the name is non-null and non-empty, the value is a single bit (so 0 and multi-bit values are refused, `1L << 63` is accepted), and value and name are new; it appends one member and keeps the table's invariants; otherwise, in the source's order of checks, ArgumentNull for a null name, Argument("name") for an empty one, Argument("value") for a value that is not a single bit or is taken, Argument("name") for a taken name |
| FilteredEnum.RegisteredIsAccepted | VkNetAsync/API/VkTypes/Enums/FilteredEnum.cs:59-75 | a freshly registered bit is accepted by `FromValue` afterwards |
| FilteredEnum.MaskHasBit | VkNetAsync/API/VkTypes/Enums/FilteredEnum.cs:64-73 | a single bit is in the OR of the registered values iff it is registered |
| FilteredEnum.MaskBitsRegistered | VkNetAsync/API/VkTypes/Enums/FilteredEnum.cs:64-73 | the same, for every single bit at once |
| FilteredEnum.MaskStepHas | VkNetAsync/API/VkTypes/Enums/FilteredEnum.cs:64 | a bit is in the mask of a table iff it is in the mask without the last member or in the last member's value |
| FilteredEnum.MaskStep | VkNetAsync/API/VkTypes/Enums/FilteredEnum.cs:64 | the mask of a table is the mask without its last member, ORed with that member's value |
| FilteredEnum.MaskPrefix | VkNetAsync/API/VkTypes/Enums/FilteredEnum.cs:64 | the mask of the first `k` members adds member `k - 1` to the mask of the first `k - 1` |
| FilteredEnum.SumIsMask | VkNetAsync/API/VkTypes/Enums/FilteredEnum.cs:64 | the wrapping 64-bit `Sum` of distinct single bits equals their bitwise OR |
| FilteredEnum.SumStep | VkNetAsync/API/VkTypes/Enums/FilteredEnum.cs:64 | adding a bit not yet in the mask keeps the sum equal to the mask |
| FilteredEnum.AcceptsIffBitsRegistered | VkNetAsync/API/VkTypes/Enums/FilteredEnum.cs:62-76 | a value has no bit outside the mask iff each of its set bits is a registered value |
| FilteredEnum.SumAccepts | VkNetAsync/API/VkTypes/Enums/FilteredEnum.cs:62-76 | the check against the sum `FromValue` computes accepts exactly the values whose set bits are all registered |
| FilteredEnum.OrCommutes | VkNetAsync/API/VkTypes/Enums/FilteredEnum.cs:96-99 | `a \| b == b \| a` |
| FilteredEnum.OrAssociates | VkNetAsync/API/VkTypes/Enums/FilteredEnum.cs:96-99 | `(a \| b) \| c == a \| (b \| c)` |
| FilteredEnum.OrIdempotent | VkNetAsync/API/VkTypes/Enums/FilteredEnum.cs:96-99 | `a \| a == a` |
| FilteredEnum.OrEmpty | VkNetAsync/API/VkTypes/Enums/FilteredEnum.cs:86-99 | the fresh filter (value 0) is the unit of `\|` |
| FilteredEnum.OrLaws | VkNetAsync/API/VkTypes/Enums/FilteredEnum.cs:96-99 | the four laws together |
| FilteredEnum.OrHasBits | VkNetAsync/API/VkTypes/Enums/FilteredEnum.cs:96-99 | a bit is set in `a \| b` iff it is set in `a` or in `b` |
| FilteredEnum.Names | VkNetAsync/API/VkTypes/Enums/FilteredEnum.cs:93 | at most one name per registered member |
| FilteredEnum.NamesListed | VkNetAsync/API/VkTypes/Enums/FilteredEnum.cs:91-94 | a name is listed iff some member with that name shares a bit with the value |
| FilteredEnum.NamesOfMember | VkNetAsync/API/VkTypes/Enums/FilteredEnum.cs:91-94 | a registered member renders as its own name alone |
| FilteredEnum.NamesCovering | VkNetAsync/API/VkTypes/Enums/FilteredEnum.cs:91-94 | a value sharing a bit with every member lists all names, in registration order |
| FilteredEnum.NamesNone | VkNetAsync/API/VkTypes/Enums/FilteredEnum.cs:91-94 | a single unregistered bit renders as no names |
| FilteredEnum.AllNames | VkNetAsync/API/VkTypes/Enums/FilteredEnum.cs:93 | the names of a table, one per member, in registration order |
| FilteredEnum.ToStringSplits | VkNetAsync/API/VkTypes/Enums/FilteredEnum.cs:91-94 | when no name holds a comma, splitting `ToString` at commas gives back exactly the listed names |
| FilteredEnum.CheckBits | VkNetAsync/API/VkTypes/Enums/FilteredEnum.cs:65-73 | the loop shifting `mask` from bit 0 until it wraps to 0 passes iff the value has no bit outside the registered mask |
| FilteredEnum.Registry.constructor | VkNetAsync/API/VkTypes/Enums/FilteredEnum.cs:37 | the shared container starts empty |
| FilteredEnum.Registry.RegisterPossibleValue | VkNetAsync/API/VkTypes/Enums/FilteredEnum.cs:39-60 | on success the container holds the new member and the result is the filter with that bit; on failure nothing changes and the error is returned; every member stays a single bit with unique value and name |
| FilteredEnum.Registry.FromValue | VkNetAsync/API/VkTypes/Enums/FilteredEnum.cs:62-76 | succeeds iff every set bit of the value is registered (so `FromValue(0)` succeeds), then with that exact value; otherwise Argument("value") |
| Settings.RegisterFresh | VkNetAsync/API/VkTypes/Enums/Filters/Settings.cs:13-93 | registering a fresh single bit under a fresh name appends it |
| Settings.RegisterAllFresh | VkNetAsync/API/VkTypes/Enums/Filters/Settings.cs:13-93 | a sequence of fresh single-bit registrations all succeed and append their members in order |
| Settings.WellFormedPrefix | VkNetAsync/API/VkTypes/Enums/Filters/Settings.cs:13-93 | every prefix of a table with unique values and names has them too |
| Settings.MembersValuesDistinct | VkNetAsync/API/VkTypes/Enums/Filters/Settings.cs:13-93 | the seventeen rights have pairwise distinct values |
| Settings.MembersNamesDistinct | VkNetAsync/API/VkTypes/Enums/Filters/Settings.cs:13-93 | the seventeen rights have pairwise distinct names |
| Settings.MembersSingleBits | VkNetAsync/API/VkTypes/Enums/Filters/Settings.cs:13-93 | every right is a single bit |
| Settings.InitialisationSucceeds | VkNetAsync/API/VkTypes/Enums/Filters/Settings.cs:13-93 | the static registrations, in declaration order, all succeed and build the table |
| Settings.MaskAt | VkNetAsync/API/VkTypes/Enums/Filters/Settings.cs:13-93 | the mask of the first `k` rights, from the mask of the first `k - 1` |
| Settings.MaskOfFirst16 | VkNetAsync/API/VkTypes/Enums/Filters/Settings.cs:13-88 | the sixteen rights before `Offline` cover bits 0-4, 7, 8, 10-13, 15 and 17-20 |
| Settings.MaskOfMembers | VkNetAsync/API/VkTypes/Enums/Filters/Settings.cs:13-93 | the registered bits are 0-4, 7, 8, 10-13 and 15-20 |
| Settings.AllIsOthers | VkNetAsync/API/VkTypes/Enums/Filters/Settings.cs:98-100 | `All` is the OR of the sixteen rights other than `Offline`, the last one registered |
| Settings.AllLacksOffline | VkNetAsync/API/VkTypes/Enums/Filters/Settings.cs:93-100 | the `Offline` bit is not in `All` |
| Settings.AllOfflineIsAllRegistered | VkNetAsync/API/VkTypes/Enums/Filters/Settings.cs:105 | `AllOffline == All \| Offline`, it is exactly the registered mask, and `FromValue` accepts it |
| Settings.UnregisteredBitsRefused | VkNetAsync/API/VkTypes/Enums/Filters/Settings.cs:13-93 | a raw value is accepted iff it has no bit outside the registered ones |
| Settings.UnregisteredBit | VkNetAsync/API/VkTypes/Enums/Filters/Settings.cs:13-93 | bits 5, 6, 9, 14 and 21-63 are unregistered, and any value holding one is refused |
| Settings.OutsideMask | VkNetAsync/API/VkTypes/Enums/Filters/Settings.cs:13-93 | bits 5, 6, 9, 14 and 21-63 are outside the registered mask |
| Settings.AllOfflineCoversMembers | VkNetAsync/API/VkTypes/Enums/Filters/Settings.cs:105 | every right shares its bit with `AllOffline` |
| Settings.AllOfflineNames | VkNetAsync/API/VkTypes/Enums/Filters/Settings.cs:88-105 | `AllOffline.ToString()` lists all seventeen names in registration order, ending with `stats` then `offline` |
| VkParameters.Converted | VkNetAsync/Service/VkParameters.cs:18-41 | null, a null text and an empty text are skipped; bool is `1`/`0`; an enum is its number; a `DateTime` is its Unix time in digits, and one before the epoch is refused; any other text is kept as is |
| VkParameters.Find | VkNetAsync/Service/VkParameters.cs:11 | the slot found holds the key; no slot found means no entry has it |
| VkParameters.FindUnique | VkNetAsync/Service/VkParameters.cs:11 | with unique keys, the slot holding a key is the one found |
| VkParameters.Entries | VkNetAsync/Service/VkParameters.cs:79-82 | the enumeration yields only full slots, no more than there are slots |
| VkParameters.Pairs | VkNetAsync/Service/VkParameters.cs:46 | one `(key, value)` pair per entry, in order |
| VkParameters.StoreLookup | VkNetAsync/Service/VkParameters.cs:23-41 | adding a new key keeps the dictionary consistent, binds the key, and leaves every other key's binding alone |
| VkParameters.StoreAppends | VkNetAsync/Service/VkParameters.cs:79-82 | without removals, a new entry is enumerated last |
| VkParameters.FillCount | VkNetAsync/Service/VkParameters.cs:52-55 | filling a free slot adds one entry |
| VkParameters.ClearCount | VkNetAsync/Service/VkParameters.cs:52-55 | freeing a full slot removes one entry |
| VkParameters.OverwriteCount | VkNetAsync/Service/VkParameters.cs:52-55 | overwriting a full slot keeps the number of entries |
| VkParameters.StoreCount | VkNetAsync/Service/VkParameters.cs:52-55 | adding a new key adds one entry |
| VkParameters.OverwriteLookup | VkNetAsync/Service/VkParameters.cs:65 | overwriting a key's value binds the key to it and leaves every other key alone |
| VkParameters.ClearLookup | VkNetAsync/Service/VkParameters.cs:68-72 | removing a key unbinds it and leaves every other key alone |
| VkParameters.Built | VkNetAsync/Service/VkParameters.cs:13-42 | a dictionary built by adds alone has only full slots |
| VkParameters.InsertionOrder | VkNetAsync/Service/VkParameters.cs:44-47 | without removals, entries are enumerated in insertion order |
| VkParameters.BodyReadsBack | VkNetAsync/Service/VkParameters.cs:44-47 | the `k=v&k=v` text of an add-only dictionary reads back as its entries in insertion order |
| VkParameters.Parameters.constructor | VkNetAsync/Service/VkParameters.cs:11 | a new parameter set is empty |
| VkParameters.Parameters.ContainsKey | VkNetAsync/Service/VkParameters.cs:57-60 | a null key is refused; otherwise true iff the key is bound |
| VkParameters.Parameters.Get | VkNetAsync/Service/VkParameters.cs:62-64 | a null key is refused; KeyNotFound iff the key is unbound; otherwise its value |
| VkParameters.Parameters.Insert | VkNetAsync/Service/VkParameters.cs:23-41 | `Dictionary.Add`: a bound key is refused with nothing changed; otherwise the key is bound, the rest is unchanged, and `Count` grows by one |
| VkParameters.Parameters.Add | VkNetAsync/Service/VkParameters.cs:13-42 | a null or empty name is refused; a skipped value changes nothing; otherwise the converted value is added, and a name already bound is refused with nothing changed; `Count` tracks the change |
| VkParameters.Parameters.Set | VkNetAsync/Service/VkParameters.cs:65 | a null key is refused; otherwise the key is bound to the value, every other key is unchanged, and `Count` grows only for a new key; a present key's slot is overwritten in place, a new key takes the most recently freed slot or a fresh one at the end |
| VkParameters.Parameters.Remove | VkNetAsync/Service/VkParameters.cs:68-72 | a null key is refused; otherwise the key is unbound and nothing else changes; its slot is emptied and pushed on the free-slot stack; removing an absent key is a no-op |
| VkParameters.OverwriteKeepsOrder | VkNetAsync/Service/VkParameters.cs:65 | overwriting the value of a present key keeps every key at its place in the enumeration |
| VkErrorConverter.Convert | VkNetAsync/Service/Exception/VkErrorConverter.cs:9-51 | a null error is refused; code 5 is AuthorizationFailed, 14 CaptchaNeeded with the payload's sid and image (a null image is refused first, as building its URI throws; otherwise refused as the `Captcha` constructor refuses them), 4/100/113/120/125 InvalidParameter, 6 TooManyRequests, 7/15/148/170/201/203/220/221/260/500 AccessDenied, every other code VkException, each with the message and code |
| VkErrorConverter.CodeGroupsDisjoint | VkNetAsync/Service/Exception/VkErrorConverter.cs:16-50 | the code groups of the table are pairwise disjoint |
| VkErrorConverter.KindByCode | VkNetAsync/Service/Exception/VkErrorConverter.cs:16-50 | the kind of error depends on the code alone |
| VkErrorConverter.InvalidUserId | VkNetAsync/Service/Exception/VkErrorConverter.cs:26-31 | code 113 gives InvalidParameter with its message and code |
| Captcha.NewCaptcha | VkNetAsync/Service/Captcha/Captcha.cs:14-28 | a captcha is built iff `sid > 0` and the image is non-null, with exactly those properties, and it satisfies the invariant; otherwise the matching argument error |
| Captcha.Rebuild | VkNetAsync/Service/Captcha/Captcha.cs:9-28 | every captcha satisfying the invariant is what the constructor builds from its own properties |
| VkApi.UnanchoredIsSomeDigit | VkNetAsync/API/VkApi.cs:17 | the unanchored `[0-9a-f]+` matches a token iff it holds one lower-case hex character |
| VkApi.AnchoredImpliesUnanchored | VkNetAsync/API/VkApi.cs:17 | a token passing the anchored check passes the unanchored one |
| VkApi.UnanchoredIsWeaker | VkNetAsync/API/VkApi.cs:17 | `xyz1` passes the unanchored check and fails the anchored one |
| VkApi.CheckArguments | VkNetAsync/API/VkApi.cs:13-21 | passes iff `userId > 0` and the token is non-null and matches unanchored; otherwise the matching error |
| VkApi.Api.constructor | VkNetAsync/API/VkApi.cs:9-21 | a session holds exactly the user id and token it was built with, which are constants |
| VkApi.NewApi | VkNetAsync/API/VkApi.cs:13-21 | `new VkApi(userId, token)` succeeds iff the checks pass, with a new session holding the arguments; otherwise the checks' error |
| Authoriser.FromTokenCheck | VkNetAsync/API/Authorisation/Authoriser.cs:14-19 | passes iff the transport is non-null, `userId > 0` and the whole token matches `^[0-9a-f]+$`; otherwise the matching error, in the source's order |
| Authoriser.FromTokenPassesConstructor | VkNetAsync/API/Authorisation/Authoriser.cs:14-21 | arguments passing `FromToken`'s checks pass `VkApi`'s constructor |
| Authoriser.FromToken | VkNetAsync/API/Authorisation/Authoriser.cs:14-22 | succeeds iff the checks pass, with a new session holding the user id and token; otherwise the checks' error |
| Authoriser.NotificationRules | VkNetAsync/API/Authorisation/Authoriser.cs:37-47 | no event iff the value is the current one; `Authorised` iff a different non-null value; `PropertyChanged("API")` raised last, once, for any change |
| Authoriser.SecondAssignmentSilent | VkNetAsync/API/Authorisation/Authoriser.cs:42 | assigning the same value a second time raises nothing more |
| Authoriser.Authoriser.constructor | VkNetAsync/API/Authorisation/Authoriser.cs:49-55 | the transport and resolver are the arguments, and there is no session and no event yet |
| Authoriser.Authoriser.SetApi | VkNetAsync/API/Authorisation/Authoriser.cs:37-47 | the `API` setter stores the value and appends exactly the events of `NotificationRules`, none when the value is unchanged |
| Authoriser.NewAuthoriser | VkNetAsync/API/Authorisation/Authoriser.cs:49-55 | construction is refused iff the transport is null; otherwise a new authoriser holding the arguments |
| ManualAuthoriser.AuthoriseCheck | VkNetAsync/API/Authorisation/ManualAuthoriser.cs:27-37 | passes iff `appId > 0`, login and password are non-null and non-empty, and settings are non-null; otherwise the first failing check's error |
| ManualAuthoriser.DecimalIsPlain | VkNetAsync/API/Authorisation/ManualAuthoriser.cs:42-44 | a rendered `long` holds neither `&` nor `=` |
| ManualAuthoriser.LoginPageUriReadsBack | VkNetAsync/API/Authorisation/ManualAuthoriser.cs:42-44 | the login page address's query reads back as `client_id`, `scope`, `redirect_uri`, `display`, `v` and `response_type`, in order |
| ManualAuthoriser.LoginPageQueryPlain | VkNetAsync/API/Authorisation/ManualAuthoriser.cs:42-44 | every entry of the login page query is free of `&` and `=` in its key and of `&` in its value |
| ManualAuthoriser.FixedEntriesPlain | VkNetAsync/API/Authorisation/ManualAuthoriser.cs:43 | the fixed entries of the template are free of separators |
| ManualAuthoriser.ScopeIsValue | VkNetAsync/API/Authorisation/ManualAuthoriser.cs:43-44 | `scope` is the numeric rights value, not the names |
| ManualAuthoriser.CheckLoginPage | VkNetAsync/API/Authorisation/ManualAuthoriser.cs:122-132 | a JSON object body always fails with AuthorizationFailed code 0, naming `error` and `error_description` when both are present and quoting the body otherwise; a JSON array body fails with ArgumentException and a single JSON value with InvalidOperationException, which the `catch` does not suppress; a non-JSON body passes |
| ManualAuthoriser.LoginEntries | VkNetAsync/API/Authorisation/ManualAuthoriser.cs:144-159 | one entry per named input, in form order: the login under `email`, the password under `pass`, the page's value (null as empty) otherwise |
| ManualAuthoriser.LoginParameters | VkNetAsync/API/Authorisation/ManualAuthoriser.cs:134-169 | a page without its form is InvalidOperation; a duplicate input name is refused; a form without `email` or `pass` breaks the assumptions; otherwise the form's action and the `name=value&…` body |
| ManualAuthoriser.LoginBodyReadsBack | VkNetAsync/API/Authorisation/ManualAuthoriser.cs:163-168 | the login body reads back as one entry per input, in form order |
| ManualAuthoriser.LoginEntriesHaveCredentials | VkNetAsync/API/Authorisation/ManualAuthoriser.cs:153-158 | the body holds `email=<login>` and `pass=<password>` |
| ManualAuthoriser.DuplicateStep | VkNetAsync/API/Authorisation/ManualAuthoriser.cs:144-158 | a duplicate among the first `k + 1` inputs is one among the first `k` or a repeat of input `k` |
| ManualAuthoriser.KeysAreNames | VkNetAsync/API/Authorisation/ManualAuthoriser.cs:158-161 | the dictionary's keys are the input names |
| ManualAuthoriser.DuplicateInPrefix | VkNetAsync/API/Authorisation/ManualAuthoriser.cs:158 | a duplicate in a prefix of the inputs is one of the whole form |
| ManualAuthoriser.EntriesStep | VkNetAsync/API/Authorisation/ManualAuthoriser.cs:144-158 | one more input adds its entry at the end |
| ManualAuthoriser.BuildLoginParameters | VkNetAsync/API/Authorisation/ManualAuthoriser.cs:134-169 | the `foreach` filling the dictionary returns exactly `LoginParameters` |
| ManualAuthoriser.Resolved | VkNetAsync/API/Authorisation/ManualAuthoriser.cs:93-120 | no resolver or a cancelled one is CaptchaNeeded with the same captcha; a null or empty answer leaves the request unchanged; otherwise same address, and the body is the old body followed by `&captcha_sid=<sid>&captcha_key=<escaped answer>` |
| ManualAuthoriser.QueryAppend | VkNetAsync/API/Authorisation/ManualAuthoriser.cs:111-115 | two non-empty queries joined by `&` are the query of both entry lists |
| ManualAuthoriser.CaptchaBodyReadsBack | VkNetAsync/API/Authorisation/ManualAuthoriser.cs:108-117 | a body with the captcha appended reads back as the form's entries followed by `captcha_sid` and `captcha_key` |
| ManualAuthoriser.Bytes | VkNetAsync/API/Authorisation/ManualAuthoriser.cs:111 | a new array holding the text |
| ManualAuthoriser.Combine | VkNetAsync/API/Authorisation/ManualAuthoriser.cs:113-115 | a new array holding the first array then the second |
| ManualAuthoriser.ResolveCaptcha | VkNetAsync/API/Authorisation/ManualAuthoriser.cs:93-120 | on byte arrays, fails or succeeds as `Resolved` does, with the same address and body; the body is the same array or a new one |
| ManualAuthoriser.CheckLoginFailed | VkNetAsync/API/Authorisation/ManualAuthoriser.cs:171-179 | passes iff the page has its form and no warning message; a warning is AuthorizationFailed code 0 quoting it |
| ManualAuthoriser.CaptchaOf | VkNetAsync/API/Authorisation/ManualAuthoriser.cs:71-91 | no captcha without a `captcha_sid` input; otherwise its value is read with `long.Parse`, whose Format or Overflow error is passed on, and the captcha of that sid and the image is built, refused for a non-positive sid |
| ManualAuthoriser.RunFirst | VkNetAsync/API/Authorisation/ManualAuthoriser.cs:49-57 | a run posts a first request iff its parameters can be built, and posts exactly those |
| ManualAuthoriser.RunAgain | VkNetAsync/API/Authorisation/ManualAuthoriser.cs:57-62 | a post answered with a captcha is followed by a run on that response with that captcha pending |
| ManualAuthoriser.RunStops | VkNetAsync/API/Authorisation/ManualAuthoriser.cs:49-62 | the loop stops on a failed build, an unanswered post, a failed response, or a response without captcha |
| ManualAuthoriser.RunContinues | VkNetAsync/API/Authorisation/ManualAuthoriser.cs:49-62 | going round again extends the posts made by exactly one request |
| ManualAuthoriser.RunLater | VkNetAsync/API/Authorisation/ManualAuthoriser.cs:52-60 | each later post is built from parameters freshly read from the previous response, with the captcha that response showed |
| ManualAuthoriser.RunDone | VkNetAsync/API/Authorisation/ManualAuthoriser.cs:62 | the loop exits normally iff the response to its last post shows no captcha |
| ManualAuthoriser.RoundsApply | VkNetAsync/API/Authorisation/ManualAuthoriser.cs:52-55 | the login's round function builds a post as `Round` does |
| ManualAuthoriser.BuildRound | VkNetAsync/API/Authorisation/ManualAuthoriser.cs:52-55 | building parameters and resolving the pending captcha gives exactly `Round` |
| ManualAuthoriser.LoginLoop | VkNetAsync/API/Authorisation/ManualAuthoriser.cs:49-62 | the do/while posts exactly the requests of `Run` and ends as `Run` ends |
| ManualAuthoriser.LoginFirstPost | VkNetAsync/API/Authorisation/ManualAuthoriser.cs:49-57 | the first post is the first page's parameters, with no captcha |
| ManualAuthoriser.RoundResolves | VkNetAsync/API/Authorisation/ManualAuthoriser.cs:52-55 | a post built with a captcha pending is the page's parameters with that captcha resolved |
| ManualAuthoriser.After | VkNetAsync/API/Authorisation/ManualAuthoriser.cs:202 | gives what follows a prefix iff the text starts with it |
| ManualAuthoriser.ReadField | VkNetAsync/API/Authorisation/ManualAuthoriser.cs:202 | a field read is the key, a value without `&`, `&`, then the rest |
| ManualAuthoriser.ReadFieldOf | VkNetAsync/API/Authorisation/ManualAuthoriser.cs:202 | a field whose value has no `&` reads back as that value and the rest |
| ManualAuthoriser.BeforeLineEnd | VkNetAsync/API/Authorisation/ManualAuthoriser.cs:202 | drops at most one final newline, which `$` accepts |
| ManualAuthoriser.ParseSuccess | VkNetAsync/API/Authorisation/ManualAuthoriser.cs:201-205 | what it reads are valid success groups |
| ManualAuthoriser.ReadSuccess | VkNetAsync/API/Authorisation/ManualAuthoriser.cs:201-205 | what it reads are valid success groups |
| ManualAuthoriser.AfterOf | VkNetAsync/API/Authorisation/ManualAuthoriser.cs:202 | a prefix followed by a rest reads back as the rest |
| ManualAuthoriser.BeforeLineEndOf | VkNetAsync/API/Authorisation/ManualAuthoriser.cs:202 | a last group followed by what `$` accepts reads back as the group |
| ManualAuthoriser.ValidSuccessGroupsPlain | VkNetAsync/API/Authorisation/ManualAuthoriser.cs:202 | valid success groups hold no `&` and no newline |
| ManualAuthoriser.ReadSuccessSound | VkNetAsync/API/Authorisation/ManualAuthoriser.cs:201-205 | what the reader reads is a match of the success shape |
| ManualAuthoriser.ReadSuccessComplete | VkNetAsync/API/Authorisation/ManualAuthoriser.cs:201-205 | every match of the success shape is read with its groups |
| ManualAuthoriser.ReadFailureSound | VkNetAsync/API/Authorisation/ManualAuthoriser.cs:215-216 | what the reader reads is a match of the failure shape |
| ManualAuthoriser.ReadFailureComplete | VkNetAsync/API/Authorisation/ManualAuthoriser.cs:215-216 | every match of the failure shape is read with its groups |
| ManualAuthoriser.ParseSuccessCorrect | VkNetAsync/API/Authorisation/ManualAuthoriser.cs:201-205 | the reader gives groups `g` iff the anchored success pattern matches with groups `g` |
| ManualAuthoriser.ParseFailureCorrect | VkNetAsync/API/Authorisation/ManualAuthoriser.cs:215-216 | the reader gives groups `g` iff the failure pattern matches with groups `g` |
| ManualAuthoriser.PatternsDisjoint | VkNetAsync/API/Authorisation/ManualAuthoriser.cs:201-216 | no address matches both patterns (`#` against `?`) |
| ManualAuthoriser.TokenPassesCheck | VkNetAsync/API/Authorisation/ManualAuthoriser.cs:202-211 | a matched token passes `FromToken`'s anchored check |
| ManualAuthoriser.FromGroups | VkNetAsync/API/Authorisation/ManualAuthoriser.cs:205-224 | corrected: a granted redirect gives its user id and token (Overflow past `long.MaxValue`, refused for user id 0); a refused one fails with `error: desc`, code 0; any other address breaks the closing assumption |
| ManualAuthoriser.FromGroupsAsWritten | VkNetAsync/API/Authorisation/ManualAuthoriser.cs:215-223 | as written: a refused redirect fails with the message `: `; every other case is as corrected |
| ManualAuthoriser.GrantedRedirect | VkNetAsync/API/Authorisation/ManualAuthoriser.cs:201-212 | an address matching the success pattern gives exactly its user id and token, or Overflow, or the user id error |
| ManualAuthoriser.RefusedRedirect | VkNetAsync/API/Authorisation/ManualAuthoriser.cs:215-223 | an address matching the failure pattern fails with its error and description |
| ManualAuthoriser.FailureTextLost | VkNetAsync/API/Authorisation/ManualAuthoriser.cs:218-222 | as written, every refused redirect fails with `: `, which differs from the intended message |
| ManualAuthoriser.FailureTextLostExample | VkNetAsync/API/Authorisation/ManualAuthoriser.cs:218-222 | `access_denied`/`denied` gives `: ` as written and `access_denied: denied` as corrected |
| ManualAuthoriser.GrantAccessUri | VkNetAsync/API/Authorisation/ManualAuthoriser.cs:182-191 | the permissions form's action; a page without a form breaks the assumption |
| ManualAuthoriser.PostsOf | VkNetAsync/API/Authorisation/ManualAuthoriser.cs:57 | each login request becomes one post of its body to its address, in order |
| ManualAuthoriser.RunLength | VkNetAsync/API/Authorisation/ManualAuthoriser.cs:49-62 | the loop runs out of responses iff it made one post more than were answered |
| ManualAuthoriser.ExchangeOpens | VkNetAsync/API/Authorisation/ManualAuthoriser.cs:42-47 | the exchange opens by loading the login page address twice |
| ManualAuthoriser.ExchangeAnsweredInOrder | VkNetAsync/API/Authorisation/ManualAuthoriser.cs:40-69 | each request but a last unanswered one gets the next response |
| ManualAuthoriser.ExchangeAccess | VkNetAsync/API/Authorisation/ManualAuthoriser.cs:62-68 | the access address is where the last request went: a bodyless post to the action of the page that ended the login loop |
| ManualAuthoriser.ManualAuthoriser.constructor | VkNetAsync/API/Authorisation/ManualAuthoriser.cs:22-25 | the base authoriser holds the transport and resolver, with no session and no event |
| ManualAuthoriser.ManualAuthoriser.AuthoriseFromUri | VkNetAsync/API/Authorisation/ManualAuthoriser.cs:193-225 | on a granted redirect the session becomes a new one with its user id and token, raising `Authorised` then `PropertyChanged("API")`; on any failure the error of `FromGroups`, and nothing changes |
| ManualAuthoriser.ManualAuthoriser.InstallGroups | VkNetAsync/API/Authorisation/ManualAuthoriser.cs:205-224 | the branches after the two matches leave the state `FromGroups` prescribes |
| ManualAuthoriser.ManualAuthoriser.AuthoriseInternal | VkNetAsync/API/Authorisation/ManualAuthoriser.cs:40-69 | sends exactly the requests of the exchange; a failure before the access address changes nothing; at the access address, as `AuthoriseFromUri` |
| ManualAuthoriser.ManualAuthoriser.Login | VkNetAsync/API/Authorisation/ManualAuthoriser.cs:45-68 | the same, from the login page address on |
| ManualAuthoriser.ManualAuthoriser.PostGrant | VkNetAsync/API/Authorisation/ManualAuthoriser.cs:57-66 | after the loop: its posts, then the bodyless post to the permissions form's action |
| ManualAuthoriser.ManualAuthoriser.Conclude | VkNetAsync/API/Authorisation/ManualAuthoriser.cs:65-68 | a failed flow ends with its error; one that reached the access address ends as `AuthoriseFromUri` |
| ManualAuthoriser.ManualAuthoriser.Authorise | VkNetAsync/API/Authorisation/ManualAuthoriser.cs:27-37 | failed argument checks send nothing and change nothing; otherwise as `AuthoriseInternal` |
| DateTimeEx.EpochIsCivil | VkNetAsync/Service/DateTimeEx.cs:13 | the epoch constant is 1970-01-01T00:00:00 of the calendar |
| DateTimeEx.MaxTicksIsCivil | VkNetAsync/Service/DateTimeEx.cs:18-20 | the largest tick count is the last tick of 9999-12-31 |
| DateTimeEx.ToUnixTime | VkNetAsync/Service/DateTimeEx.cs:8-14 | refused before the epoch; otherwise the whole seconds since the epoch, fraction truncated, never negative |
| DateTimeEx.UnixTimeToDateTime | VkNetAsync/Service/DateTimeEx.cs:16-21 | refused for a negative time or one past year 9999; otherwise the epoch plus that many seconds |
| DateTimeEx.UnixTimeRoundTrip | VkNetAsync/Service/DateTimeEx.cs:8-21 | `ToUnixTime(UnixTimeToDateTime(n)) == n` for every representable `n >= 0` |
| DateTimeEx.DateTimeRoundTrip | VkNetAsync/Service/DateTimeEx.cs:8-21 | converting a `DateTime` to Unix time and back drops only its fraction of a second |
| DateTimeEx.KnownInstants | VkNetAsync/Service/DateTimeEx.cs:8-21 | the epoch is 0, and 2014-09-06T22:15:10Z is 1410041710, both ways |
| DateTimeEx.RefusedInstants | VkNetAsync/Service/DateTimeEx.cs:10-18 | the last second before the epoch and every negative Unix time are refused |
| Text.NatToDecimal | VkNetAsync/Service/VkParameters.cs:35 | the decimal text of a number is non-empty digits, starting with 0 only for 0 |
| Text.ParseNatToDecimal | VkNetAsync/API/Authorisation/ManualAuthoriser.cs:209 | `long.Parse` of a rendered number gives the number |
| Text.NatToDecimalParse | VkNetAsync/API/Authorisation/ManualAuthoriser.cs:209 | rendering a parsed canonical digit string gives the string |
| Text.NatToDecimalInjective | VkNetAsync/Service/VkParameters.cs:35 | distinct numbers render differently |
| Text.IntToDecimal | VkNetAsync/API/Authorisation/ManualAuthoriser.cs:43-44 | a rendered `long` is digits, with a leading `-` when negative |
| Text.ParseLong | VkNetAsync/API/Authorisation/ManualAuthoriser.cs:82 | `long.Parse` succeeds exactly on a signed or unsigned digit text whose number fits a `long`, and gives that number; other texts are a FormatException, out-of-range numbers an OverflowException |
| Text.ParseLongOfDecimal | VkNetAsync/API/Authorisation/ManualAuthoriser.cs:82 | `long.Parse` reads back every `long` that `long.ToString()` writes |
| Text.SplitJoin | VkNetAsync/API/VkTypes/Enums/FilteredEnum.cs:93 | joining parts without the separator and splitting gives the parts |
| Text.JoinSplit | VkNetAsync/API/VkTypes/Enums/FilteredEnum.cs:93 | splitting and rejoining gives the text |
| Text.ParseItemOfItem | VkNetAsync/Service/VkParameters.cs:46 | `key=value` with a separator-free key reads back as the pair |
| Text.ParseQueryOfQuery | VkNetAsync/Service/VkParameters.cs:44-47 | `k=v&k=v` reads back as its entries |

## Left out

- HTML and JSON parsing are not modelled. A page is the facts the readers extract from it: the kind of JSON value and an object's `error` and `error_description` fields, and the one form with its action, named inputs, captcha fields and warning. "Not exactly one form" is modelled as one case.
- The network is not modelled. The transport is a script of responses, consumed in order. A request the script does not answer ends the model's run as `Unfinished`.
- Cancellation and `async` are not modelled, because they do not change the sequential logic.
- `Encoding.UTF8.GetBytes` is modelled as the identity on characters. The texts it encodes are ASCII when the inputs are.
- `Uri.EscapeUriString` is a function parameter, and the resolver's answers are a parameter too.
- `new Uri(...)` validation and `Uri.ToString` unescaping are not modelled. Addresses are texts.
- `Text.ParseLong`: the leading and trailing white space that `long.Parse` also accepts is not modelled. Such a text is a FormatException in the model.
- `ManualAuthoriser.CaptchaOf`: a `captcha_sid` input without a `value` attribute (a NullReferenceException) and a missing or doubled captcha image (`Single`) are not modelled. The sid is the input's value text and the image is its address.
- `GetLoginRequestParametersFromLoginPage`: a form where some named input has several values is not modelled. The duplicate-name refusal covers the keys.
- `Contract.Assume` failures are modelled as the `ContractAssumption` error.
- `AuthoriseFromUri` reads the `expires` group but never uses it. The model reads the group and drops it too.
- `SuccessMatch`, `FailureMatch`: .NET `$` also matches before one final newline. The model allows that newline; no other regex feature is modelled.
- `DateTimeEx.ToUnixTime`: the `ToUniversalTime` conversion and the `double` `TotalSeconds` are not modelled. Timestamps are UTC ticks, and the fraction is truncated exactly.
- `VkParameters.Entries`: .NET `Dictionary` enumeration order after a removal is modelled by a free-slot stack. This mirrors the reference implementation, which the language does not promise.
- `ExclusiveEnum` and `FilteredEnum`: `GetHashCode`, `!=`, and the exception messages' texts are not modelled. Errors carry their kind and parameter name.
- `ExclusiveEnum`: the `static` list per generic instantiation is modelled as one registry object per enum type.
- `FilteredEnum.Registry.FromValue`: LINQ `Sum` is checked arithmetic in C#. Distinct single bits never overflow it, so the model sums in `bv64` and proves the sum equal to the OR.
- `ManualAuthoriser.Authorise`: the first login page load answers the loop and the second is only checked, as in the source. The model keeps both loads.
- Event delivery to handlers in `Authoriser` is a trace of raised events, not delegates.
- `Authoriser.FromToken`: the four-argument `VkApi` constructor it calls is not part of this model's sources. The model uses the two-argument constructor with the resolver dropped.
- The throttled `Call` gateway, `NetworkTransport`, `VkResponse` and `ApiVersionAttribute` are not part of this model.

## Findings

| source | as written | input that shows it | evidently intended | confidence | as-written member | corrected member |
|---|---|---|---|---|---|---|
| VkNetAsync/API/Authorisation/ManualAuthoriser.cs:218 | the failure branch reads `error` and `desc` from a match of the success pattern, which has failed, so both groups are empty and the message is `: ` | the redirect `https://oauth.vk.com/blank.html?error=access_denied&error_description=denied` | the message `access_denied: denied`, read from the failure pattern's match | not executed | ManualAuthoriser.FailureTextLost | ManualAuthoriser.FromGroups |
