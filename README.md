# Client session of the shopping-cart web client

This project models, in Dafny, the client-side authentication session of a
React shopping-cart client and the pure rules that feed it. The model has four stores of
identity and place:

- the token store, which holds a bearer token or nothing;
- the query-cache entry `"user"`, which is undefined, null or a user;
- the identity context `loggedInUser`;
- the current route.

The handlers that write these stores are modelled too:

- the login and registration forms, with their schemas;
- the layout's render pass, which copies the cached user into the context;
- the header's logout;
- the hooks that read the contexts;
- the access gate of the user page.

The model also covers the theme provider, with its persisted theme and dark-mode class, and the label component's capitalisation.

Each handler is modelled twice:

- a pure function that returns the handler's writes as an ordered list of `Effect`s, so that `Store.Run` can apply it to a `Snapshot` of the stores;
- a method of the class `ClientSession.Session`, which performs the same writes one at a time and whose contract ties the new state to that list.

Lemmas relate the lists to the stores and the handlers to one another (`SessionTrace`).

Network answers are parameters: `Outcome.Resolved(value)` or `Outcome.Rejected`. The email-format check of the validation library and the phone-number check are function parameters `isEmail` and `isPhone`. The user's reset confirmation is a boolean. The step of the logout that throws, if any, is a parameter `fault`.

Reading of the code where it is not obvious:

- The login success callback can throw on a response without a token. The model sends that error to the `.catch` of the login call, which shows "Login Failed". A registration answered with nothing is treated the same way ("Registration Failed").
- `oneOf(["", ...])` on gender and account type admits the empty string, but `required` rejects it. Only the enum values pass.
- Logout never clears the context. After a logout, the user page still welcomes the previous user until the application reloads (`SessionTrace.LogoutLeavesGateOpen`).
- If a stored theme is `"dark"` but the document lacks the class, the effect skips and the class stays missing (`Theme.StoredDarkSkipsClass`).

## Model

| member | source | states |
|---|---|---|
| Interface.AccountTypeValues | src/services/interface.ts:66-69 | the values are exactly the strings of the enum members Buyer and Seller |
| Interface.GenderValues | src/services/interface.ts:78-81 | the values are exactly the strings of the enum members Female and Male |
| Store.Apply | src/forms/login-form.tsx:69-72 | one write overwrites only the store it names and is appended to the log |
| Store.Run | src/forms/login-form.tsx:66-88 | running a list of writes appends exactly that list to the log |
| Store.RunFrame | src/layouts/home-layout.tsx:15-24 | a store that no write of the list names keeps its value |
| FormRules.PasswordMessages | src/forms/login-form.tsx:20-29 | each password rule's message is present iff that rule fails; no message iff the password is at least 8 long and has an A-Z, a 0-9 and one of @$!%*?&# |
| FormRules.SamePasswordPolicy | src/forms/registration-form.tsx:26-35 | the login and registration schemas accept exactly the same passwords |
| FormRules.EmailMessages | src/forms/login-form.tsx:16-19 | no email message iff the email is non-empty and well-formed; the required message iff it is empty |
| FormRules.FieldCheck | src/forms/login-form.tsx:15-30 | a field reports no error iff none of its rules fail, otherwise exactly one error with its first failing rule's message |
| LoginForm.LoginErrors | src/forms/login-form.tsx:15-30 | the login form is error-free iff the email is present and well-formed and the password is strong; a weak password reports its first failing rule |
| LoginForm.OnSuccessEffects | src/forms/login-form.tsx:67-75 | the token is written iff the response's token is truthy; without one the only effect is the "Login Failed" notice |
| LoginForm.SubmitEffects | src/forms/login-form.tsx:65-102 | the login call is made iff the schema reports no error; the handler never writes the context |
| LoginForm.Submit | src/forms/login-form.tsx:91-102 | the login call is made exactly for a present, well-formed email and a strong password; the context is never written |
| LoginForm.TokenResponseWrites | src/forms/login-form.tsx:68-72 | a truthy token writes the token, caches the user, notifies success and routes to /user, in that order |
| LoginForm.LoginSucceeds | src/forms/login-form.tsx:65-89 | a valid form with a truthy token sets the token, the cached user and the route /user, and leaves the context alone |
| LoginForm.LoginWithoutTokenFails | src/forms/login-form.tsx:68-88 | a missing or empty token changes no store and logs "Login Failed" |
| LoginForm.LoginRejectedFails | src/forms/login-form.tsx:77-88 | a rejected login call changes no store and logs "Login Failed" |
| LoginForm.InvalidLoginFormIsRefused | src/forms/login-form.tsx:91-94 | an invalid form makes no call, changes no store and logs "Please fix the errors in form" |
| RegistrationForm.NameMessages | src/forms/registration-form.tsx:21 | the name passes iff it is non-empty, and otherwise reports only the required message |
| RegistrationForm.AgeMessages | src/forms/registration-form.tsx:36-39 | the age passes iff it is at least 18 |
| RegistrationForm.GenderMessages | src/forms/registration-form.tsx:40-43 | the gender passes iff it is exactly "Female" or "Male" |
| RegistrationForm.AccountTypeMessages | src/forms/registration-form.tsx:44-47 | the account type passes iff it is exactly "Buyer" or "Seller" |
| RegistrationForm.PhoneMessages | src/forms/registration-form.tsx:48-53 | the phone number passes iff it is non-empty and the phone check accepts it |
| RegistrationForm.TermsMessages | src/forms/registration-form.tsx:54-57 | the terms pass iff they are accepted |
| RegistrationForm.RegistrationErrors | src/forms/registration-form.tsx:20-58 | the form is error-free iff every field meets the registration policy |
| RegistrationForm.WhitelistsAreEnumValues | src/forms/registration-form.tsx:43-47 | the whitelists are exactly "" plus Female/Male and "" plus Buyer/Seller |
| RegistrationForm.EmptyChoiceIsRequired | src/forms/registration-form.tsx:40-47 | the empty choice is in the whitelist yet fails with the required message |
| RegistrationForm.LowercaseChoiceIsInvalid | src/forms/registration-form.tsx:43-47 | "female" and "buyer" fail the whitelist |
| RegistrationForm.DefaultsNeverPass | src/forms/registration-form.tsx:74-84 | the default values report the age and terms errors and never meet the policy |
| RegistrationForm.OnOutcomeEffects | src/forms/registration-form.tsx:95-120 | the login page is opened iff a user is returned; no token, cache or context write |
| RegistrationForm.SubmitEffects | src/forms/registration-form.tsx:94-126 | the register call is made iff the schema reports no error; no token, cache or context write |
| RegistrationForm.Submit | src/forms/registration-form.tsx:123-134 | the register call is made exactly for values that meet the registration policy; no token, cache or context write |
| RegistrationForm.RegistrationLeavesSessionAlone | src/forms/registration-form.tsx:94-121 | registration never changes the token, the cached user or the context |
| RegistrationForm.RegistrationSucceeds | src/forms/registration-form.tsx:96-104 | a returned user logs "Registration Successful" and routes to /login |
| RegistrationForm.RegistrationFails | src/forms/registration-form.tsx:105-120 | an empty answer or a rejection logs "Registration Failed" and changes no store |
| RegistrationForm.InvalidRegistrationIsRefused | src/forms/registration-form.tsx:123-126 | a form with errors makes no call, changes no store and logs "Please fix the errors in form" |
| RegistrationForm.RegistrationFields.constructor | src/forms/registration-form.tsx:74-84 | the form starts with the default values |
| RegistrationForm.RegistrationFields.Edit | src/forms/registration-form.tsx:89 | typing replaces the field values |
| RegistrationForm.RegistrationFields.Reset | src/forms/registration-form.tsx:194-206 | a confirmed reset restores the defaults, which then never pass; an unconfirmed one changes nothing |
| UserContext.InitialValue | src/context/UserContext.tsx:31 | the provider starts with no logged-in user |
| UserContext.UseUserHook | src/context/UserContext.tsx:50-56 | the hook fails with "useUserHook must be used within a UserProvider" iff there is no provider, and otherwise returns the provider's value |
| HomeLayout.ReconcileEffects | src/layouts/home-layout.tsx:22-24 | a pass writes iff a user is cached and the context is null or has another email, and then writes exactly that user |
| HomeLayout.ReconcileAdoptsCachedUser | src/layouts/home-layout.tsx:16-23 | the context becomes exactly the cached user when it was null or had another email |
| HomeLayout.ReconcileConverges | src/layouts/home-layout.tsx:22-23 | after a pass with a cached user, the context's email equals the cached email |
| HomeLayout.ReconcileNoSpuriousWrite | src/layouts/home-layout.tsx:22 | with matching emails the setter is not called and nothing changes |
| HomeLayout.ReconcileMatchesByEmailOnly | src/layouts/home-layout.tsx:22 | a context user with the cached email but other fields is kept |
| HomeLayout.ReconcileIgnoresEmptyCache | src/layouts/home-layout.tsx:22 | a null or undefined cache entry changes nothing, even with a user in the context |
| HomeLayout.ReconcileIdempotent | src/layouts/home-layout.tsx:16-24 | two passes equal one pass |
| HomeLayout.ReconcileIsOneWay | src/layouts/home-layout.tsx:15-24 | a pass never writes the token, the cache or the route |
| Header.LogoutEffects | src/components/header-component.tsx:25-35 | logout never writes the context; after a throwing step there is no navigation and "Logout Failed" is the last notice |
| Header.LogoutSucceeds | src/components/header-component.tsx:26-30 | the writes are notify, cache null, clear token, route /login, in order; the context is untouched |
| Header.LogoutFaultIsNotRolledBack | src/components/header-component.tsx:26-34 | the steps before the throwing one stay done, later ones do not run, and "Logout Failed" is logged |
| Header.ShownItem | src/components/header-component.tsx:24-57 | the header shows the cached user's name iff it is truthy, otherwise the link to /login |
| UserInfoPage.Gate | src/pages/UserInfoPage.tsx:17-58 | the gate is total: no user gives the unauthorized view linking to /login, a user gets one of the three welcomes |
| UserInfoPage.Page | src/pages/UserInfoPage.tsx:17-18 | outside a provider the hook's error propagates; inside, the page is the gate on the provider's user |
| UserInfoPage.BuyerIsWelcomedToShop | src/pages/UserInfoPage.tsx:35-37 | account type "Buyer" gets the shopping welcome |
| UserInfoPage.SellerIsWelcomedToList | src/pages/UserInfoPage.tsx:38-41 | account type "Seller" gets the listing welcome |
| UserInfoPage.OtherAccountTypesGetGenericWelcome | src/pages/UserInfoPage.tsx:33-43 | any other account type gets the generic "Welcome" |
| UserInfoPage.LowercaseBuyerIsNotBuyer | src/pages/UserInfoPage.tsx:33-43 | the lower-case "buyer" gets the generic "Welcome" |
| ClientSession.Session.constructor | src/context/UserContext.tsx:31 | the session starts with the stored token, an unknown cache entry, no context user and no notices |
| ClientSession.Session.Toast | src/forms/login-form.tsx:71 | a toast appends its title to the notices and changes no store |
| ClientSession.Session.StartCall | src/forms/login-form.tsx:66 | starting a call is logged and changes no store |
| ClientSession.Session.SetToken | src/forms/login-form.tsx:69 | the token store holds the given token |
| ClientSession.Session.ClearToken | src/components/header-component.tsx:29 | the token store holds nothing |
| ClientSession.Session.SetCachedUser | src/forms/login-form.tsx:70 | the cache entry is overwritten |
| ClientSession.Session.SetLoggedInUser | src/context/UserContext.tsx:31 | the context value is replaced whole, with no merge |
| ClientSession.Session.NavigateTo | src/forms/login-form.tsx:72 | the route is overwritten |
| ClientSession.Session.Render | src/layouts/home-layout.tsx:16-24 | the new session is the reconciled old one |
| ClientSession.Session.LogoutTry | src/components/header-component.tsx:26-30 | it reports a throw iff a step throws; the steps before the throwing one are done, in order, and no later one |
| ClientSession.Session.Logout | src/components/header-component.tsx:25-35 | the new session is the old one after the logout's writes for the given fault |
| ClientSession.Session.StoreLogin | src/forms/login-form.tsx:68-72 | with a truthy token, the new session is the old one after the success callback's four writes |
| ClientSession.Session.Login | src/forms/login-form.tsx:66-88 | the new session is the old one after the login call and its outcome's writes |
| ClientSession.Session.SubmitLogin | src/forms/login-form.tsx:65-102 | the new session is the old one after the login submit's writes |
| ClientSession.Session.Register | src/forms/registration-form.tsx:94-121 | the new session is the old one after the register call and its outcome's writes |
| ClientSession.Session.SubmitRegistration | src/forms/registration-form.tsx:94-126 | the new session is the old one after the registration submit's writes |
| ClientSession.Session.Perform | src/app-component.tsx:8-47 | performing an action gives the session its trace step describes |
| SessionTrace.Step | src/app-component.tsx:8-47 | one action appends exactly its handler's writes to the log; the render pass applies the layout's writes whatever the route |
| SessionTrace.PlayAppend | src/app-component.tsx:8-47 | playing two sessions one after the other equals playing the joined session |
| SessionTrace.FreshSessionInStep | src/layouts/home-layout.tsx:15-16 | a session opened with an unknown cache entry has the token and the cache in step iff no token was kept in storage |
| SessionTrace.StepKeepsTokenTracksCache | src/components/header-component.tsx:26-30 | every action except a logout whose token step throws keeps "a token is stored iff a user is cached"; the login and registration callbacks are taken not to throw partway |
| SessionTrace.LoginKeepsTokenTracksCache | src/forms/login-form.tsx:65-94 | whatever the form's errors and the call's outcome, a login submit keeps "a token is stored iff a user is cached" |
| SessionTrace.LogoutKeepsTokenTracksCache | src/components/header-component.tsx:25-35 | a logout whose token step does not throw keeps "a token is stored iff a user is cached" |
| SessionTrace.PlayKeepsTokenTracksCache | src/forms/login-form.tsx:69-70 | any sequence of such actions keeps the token and the cached user in step, from a start where they are in step (not a reload that kept a token) |
| SessionTrace.TokenFaultSplitsStores | src/components/header-component.tsx:28-29 | a throw in the token step leaves a token while the cached user is null |
| SessionTrace.LoginThenRenderAgrees | src/layouts/home-layout.tsx:22-23 | after a successful login and a render, the token, cache and context all name the response's user |
| SessionTrace.LogoutLeavesGateOpen | src/components/header-component.tsx:25-35 | after logout and a render the context still holds the previous user and the gate still welcomes them |
| Theme.Lower | src/context/theme-context.tsx:33 | lower-casing keeps the length and leaves no A-Z character |
| Theme.DefaultTheme | src/context/theme-context.tsx:30-36 | a stored non-empty theme gives dark mode iff its lower-cased value is "dark"; otherwise the system preference decides |
| Theme.DefaultThemeIgnoresCase | src/context/theme-context.tsx:33 | two stored themes with the same lower-cased value give the same mode |
| Theme.StoredThemeOverridesSystem | src/context/theme-context.tsx:32-34 | with a stored non-empty theme the system preference does not matter |
| Theme.ThemeEffect | src/context/theme-context.tsx:52-61 | after the effect the stored theme is "dark" in dark mode and "light" otherwise; when it already was, nothing is written |
| Theme.ThemeEffectIdempotent | src/context/theme-context.tsx:54-57 | running the effect twice equals running it once |
| Theme.ThemeEffectKeepsConsistent | src/context/theme-context.tsx:54-59 | from a state where the class agrees with the stored theme, the effect leaves the class equal to the mode |
| Theme.UppercaseDarkIsRewritten | src/context/theme-context.tsx:33-56 | a stored "DARK" gives dark mode and is rewritten to "dark" |
| Theme.StoredDarkSkipsClass | src/context/theme-context.tsx:54 | a stored "dark" with the class missing gives dark mode, but the class stays missing |
| Theme.UseDarkMode | src/context/theme-context.tsx:78-84 | the hook fails with "UseDarkMode must be used within a ThemeProvider" iff there is no provider |
| Theme.ThemeProvider.constructor | src/context/theme-context.tsx:51-61 | the mode starts at the default theme and the effect runs once on mount |
| Theme.ThemeProvider.ApplyEffect | src/context/theme-context.tsx:52-61 | the storage and the class become the effect of the current mode; the mode is unchanged |
| Theme.ThemeProvider.Toggle | src/components/toggle-button-component.tsx:19-21 | the mode flips and the effect runs for the new mode |
| Label.UpperChar | src/components/label-component.tsx:14 | a lower-case ASCII letter becomes its upper-case counterpart (never lower-case, same letter ignoring case); other characters are unchanged |
| Label.Capitalize | src/components/label-component.tsx:14 | the length is kept, every character after the first is unchanged, and the first is upper-cased: not lower-case and the same letter ignoring case |
| Label.CapitalizeKeepsLetters | src/components/label-component.tsx:14 | lower-cased, the capitalised label equals the lower-cased label |
| Label.CapitalizeIdempotent | src/components/label-component.tsx:14 | capitalising twice equals capitalising once |
| Label.LabelComponent | src/components/label-component.tsx:13-14 | htmlFor is the raw label and the text is the capitalised label |

## Left out

- Network calls (`fetch` and the response handling in src/services/apiService.ts) are not modelled. Each call's result is a parameter: resolved with a value, or rejected.
- The email-format check of the validation library and `isValidPhoneNumber` are not modelled; they are the parameters `isEmail` and `isPhone`.
- Framework internals are not modelled. This covers react-hook-form's resolver run, react-query's callback scheduling, routing, rendering, the StrictMode double render and async interleaving. Each handler and each render pass is one atomic step.
- The login and registration success callbacks are taken to run all their writes or none. The model does not let `queryClient.setQueryData`, `toast` or `navigate` throw after `storage.setToken` has run (src/forms/login-form.tsx:69-72), or `navigate` throw after the success toast (src/forms/registration-form.tsx:98-104). Such a throw would show the failure toast with the earlier writes kept; for login it would leave a token without a cached user, as a logout whose token step throws does.
- In react-query, an error thrown inside a per-call `onSuccess` may not reach the `.catch` of `mutateAsync`. The model assumes it does, which is the handlers' evident intent.
- Only the first failing rule of each field is reported (`FieldCheck`). This assumes the schema reports the rules in their declared order.
- Toasts are reduced to their titles. `console.log` is not modelled. The document's class list is reduced to one boolean (the "dark" class).
- Theme.Lower: lower-casing covers ASCII only. JavaScript's full Unicode mapping is not modelled; for example, the Kelvin sign lower-cases to "k".
- Label.UpperChar: upper-casing covers ASCII only. JavaScript's full Unicode mapping is not modelled; for example, "ß" upper-cases to two characters.
- Lengths are counted in Unicode code points, not UTF-16 code units.
- The age is an integer. A missing age and NaN from the number input are not modelled.
- The toggle button's "Toggle Failed" branch is not modelled: the hook raises when there is no provider, so `setDarkMode` is always present and the branch cannot be reached.
- The PascalCase twins of the forms, header, layout and pages are not modelled; the forms repeat the same logic line for line.
- src/pages/user-info-page.tsx is not modelled. It compares against enum members that do not exist.
- src/services/loginService.ts is not modelled. It is unused, and it caches the whole response.
- The storage module (`session-utils`) is not part of this model beyond a token slot holding a string or nothing.
- Presentational components, the footer's clock, build configuration and the wiring in src/main.tsx and src/App.tsx are not modelled.
