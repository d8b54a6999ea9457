# Voucher-App core in Dafny

This project models the server core of the voucher app. Clients buy vouchers of a catalogue type, paying by PIX or credit card through the Asaas gateway. Validators redeem the vouchers by code. The model covers:

- the API routes that issue, look up and redeem vouchers;
- the routes that open and confirm payments;
- the routes that register users and sign them in;
- the route guard that protects the pages;
- the decision logic of the checkout and validator pages.

The database is an in-memory store, `Db.Store`. It holds maps for users, voucher types, payments and vouchers, plus a code index. Its invariant `Db.Consistent` says:

- ids are allocated below a counter;
- voucher codes are unique and indexed;
- login ids are unique;
- rows name catalogue types;
- a voucher issued for a payment is the voucher that payment links to;
- an active voucher has no recorded use.

Each route that changes the database has two parts. A ghost specification function on the `Db.Tables` value carries the lemmas. A method on the store states that its new state and its reply are that function's result. Read-only routes are methods whose result equals a function of the state.

Some inputs cannot be seen from the routes. They are parameters:

- the signed-in principal, which `getCurrentUser` returns, as `Option<AuthUser>`;
- the gateway's answers (`Payments.Gateway`), and the calls made to it, which come back as a list;
- the random draws of `nanoid` and `customAlphabet`;
- the clock;
- bcrypt's comparison and the password hash;
- JWT verification;
- the success or failure of each database write whose error the route checks (`Db.DbReply`). Writes whose error the source ignores always take effect in the model; see Issuance.Issue under "Left out".

Ids are natural numbers handed out by the store.

Three behaviours of the code are kept as written:

- A webhook moves a `FAILED` payment to `CONFIRMED`/`RECEIVED` (`AsaasWebhook.FailedPaymentIsRevived`).
- A card request without card data, or with an unknown `billing_type`, leaves the `PENDING` row it inserted (`Payments.RefusedAfterInsertStrandsPendingRow`).
- A captured card payment replies `"CONFIRMED"`, but issuance then leaves the stored status at `RECEIVED` (`Payments.CapturedCardEndsReceived`).

## Model

| member | source | states |
|---|---|---|
| Schema.ParseVoucherStatus | src/lib/database.types.ts:37 | a voucher status literal parses exactly when it is `active` or `used`, and names the value it parsed to |
| Schema.ParseRole | src/lib/database.types.ts:69 | a role literal parses exactly when it is `cliente` or `validador` |
| Schema.ParsePaymentStatus | src/lib/database.types.ts:103 | a payment status literal parses exactly when it is one of the six statuses |
| Schema.ParseBillingType | src/lib/database.types.ts:101 | a billing type literal parses exactly when it is `PIX` or `CREDIT_CARD` |
| Schema.NamesRoundTrip | src/lib/database.types.ts:101-103 | every value of the four closed enumerations parses back from its own literal |
| Db.AtMostOneVoucherPerPayment | src/lib/create-voucher.ts:51-56 | in a consistent store two vouchers issued for the same payment are the same voucher |
| Db.Store.constructor | src/lib/database.types.ts:1-93 | a store holding only the voucher-type catalogue is consistent |
| Wrappers.OrElse | src/app/api/payments/route.ts:51-53 | `a \|\| b` on optional strings: the first operand when it is present and non-empty, else the second |
| Text.Upper | src/lib/create-voucher.ts:30 | `toUpperCase` keeps the length and upper-cases each ASCII letter |
| Text.Lower | src/app/api/auth/registrar/route.ts:37 | `toLowerCase` keeps the length and lower-cases each ASCII letter |
| Text.Digits | src/app/api/payments/route.ts:48 | `replace(/\D/g, "")` keeps only digits; a string of digits is kept whole; a single character is kept exactly when it is a digit |
| Text.DigitsConcat | src/app/api/payments/route.ts:48 | the digits of a concatenation are the digits of each part, in order, so with the one-character case every digit of the input survives in order and nothing else does |
| Text.Trim | src/app/api/auth/registrar/route.ts:76-77 | `trim()` leaves a middle slice of the string that neither starts nor ends with white space, and cuts only white space on either side |
| Text.BeforeComma | src/app/api/payments/route.ts:127 | `split(",")[0]` is the longest comma-free prefix, ended by a comma or by the end of the string |
| Text.TrimEmptyIffAllSpace | src/app/checkout/page.tsx:130 | `trim()` gives the empty string exactly when the string is all white space |
| Text.UpperIdempotent | src/app/checkout/page.tsx:189 | upper-casing twice is upper-casing once |
| Text.DigitsIdempotent | src/app/checkout/page.tsx:144 | removing non-digits twice removes them once |
| LoginIds.GenerateLoginId | src/lib/generate-login-id.ts:4-5 | a generated login id has six characters, each drawn from the alphabet |
| LoginIds.AlphabetSize | src/lib/generate-login-id.ts:4 | the alphabet has 31 characters |
| LoginIds.AlphabetOmitsLookAlikes | src/lib/generate-login-id.ts:3-4 | no `0`, `O`, `1`, `I` or `L` is in the alphabet |
| LoginIds.AlphabetIsUpperAlphanumeric | src/lib/generate-login-id.ts:4 | every alphabet character is an upper-case letter or a digit |
| LoginIds.UpperFixesLoginId | src/lib/generate-login-id.ts:4 | upper-casing a login id leaves it unchanged |
| LoginIds.TypedLoginIdNormalises | src/app/api/auth/login/route.ts:22 | a login id typed in any letter case, with white space around it, upper-cases and trims back to itself |
| Issuance.VoucherCode | src/lib/create-voucher.ts:30 | the code is the candidate upper-cased: same length, ten characters of nanoid's alphabet without lower case, fixed by upper-casing |
| Issuance.ExistingVoucher | src/lib/create-voucher.ts:10-27 | the linked voucher is found exactly when the payment has a `voucher_id` whose voucher exists; it returns that voucher's id and code |
| Issuance.Issue | src/lib/create-voucher.ts:4-57 | an existing link returns the linked voucher and writes nothing; a failed insert throws and writes nothing; success links the payment to the returned voucher; only that payment row changes; the store stays consistent |
| Issuance.IssueCreatesActiveVoucher | src/lib/create-voucher.ts:29-56 | a new voucher gets the next id, the upper-cased candidate as its code, status active, and the given type, user and payment; the payment gets its `voucher_id` and status `RECEIVED` |
| Issuance.IssueFailsOnlyOnRefusedInsert | src/lib/create-voucher.ts:45-48 | issuance fails exactly when there is no linked voucher and the insert is refused |
| Issuance.DanglingLinkFallsThrough | src/lib/create-voucher.ts:16-30 | a `voucher_id` whose voucher is missing leads to a new voucher, and the payment is relinked to it |
| Issuance.IssueIsIdempotent | src/lib/create-voucher.ts:10-56 | after a successful issuance a second call for the same payment, with any other arguments, returns the same voucher and changes nothing |
| Issuance.IssuedVoucherIsTheOnlyOne | src/lib/create-voucher.ts:33-56 | after issuance the returned voucher is the only voucher carrying that payment id |
| Issuance.CreateVoucherForPayment | src/lib/create-voucher.ts:4-57 | the method's new store and result are those of `Issue` |
| ValidarRoute.View | src/app/api/validar/route.ts:21-47 | the voucher shown is the row the code index names for its code, with its own status, time of use and its type's name, value and description |
| ValidarRoute.Lookup | src/app/api/validar/route.ts:6-48 | GET replies 401 without a principal, then 400 without a code, then 404 when the upper-cased code is unknown; otherwise 200 with that voucher, whose `valid` is true exactly when it is active |
| ValidarRoute.Get | src/app/api/validar/route.ts:6-48 | GET only reads the store, and its reply is `Lookup` of the state |
| ValidarRoute.Redemption | src/app/api/validar/route.ts:51-126 | the checks answer in order (401, 403, 400, 404) without writing; 409 exactly for a known code whose voucher is used, with its original `used_at`; 500 exactly for an unreadable body or a refused update of an active voucher, each with its message; 200 exactly for an active voucher and an accepted update, which marks exactly that voucher used, with the time and the validator, and replies its type's name and value; only the vouchers table can change |
| ValidarRoute.UsedIsNeverOverwritten | src/app/api/validar/route.ts:86-101 | a used voucher is unchanged by any redemption request |
| ValidarRoute.SecondRedemptionConflicts | src/app/api/validar/route.ts:86-101 | after a successful redemption, a second one by any validator answers 409 with the first time of use and changes nothing |
| ValidarRoute.Post | src/app/api/validar/route.ts:51-126 | the method's new store and reply are those of `Redemption` |
| AsaasWebhook.TokenRejected | src/app/api/webhooks/asaas/route.ts:8-14 | with no secret configured nothing is rejected; with one configured a request is rejected exactly when its header differs from it |
| AsaasWebhook.Target | src/app/api/webhooks/asaas/route.ts:29-43 | a payment is found exactly for a confirmation event with a payment id that exactly one payment carries as its gateway id, and it is that payment |
| AsaasWebhook.Process | src/app/api/webhooks/asaas/route.ts:50-72 | the payment is marked with the event's status, the body and the time; issuance runs for the payment's own user and type only when it has no voucher link, and its failure is swallowed; only that payment row changes, and it ends processed |
| AsaasWebhook.Notification | src/app/api/webhooks/asaas/route.ts:5-80 | the reply is 401 exactly when a configured token differs from the header, and then nothing is written; every other path answers 200 `{received: true}`; a write happens only for a confirmation event about a known, unprocessed payment, and is its processing |
| AsaasWebhook.UnprocessedPaymentIsProcessed | src/app/api/webhooks/asaas/route.ts:45-74 | a confirmation for a known payment not yet `RECEIVED`/`CONFIRMED` processes it and is acknowledged |
| AsaasWebhook.FailedPaymentIsRevived | src/app/api/webhooks/asaas/route.ts:45-58 | a confirmation for a `FAILED` payment moves it to `CONFIRMED` or `RECEIVED` |
| AsaasWebhook.ReplayIsNoOp | src/app/api/webhooks/asaas/route.ts:45-48 | delivering the same notification a second time changes nothing |
| AsaasWebhook.MarkAndIssue | src/app/api/webhooks/asaas/route.ts:50-72 | the method's new store is `Process` of the old one |
| AsaasWebhook.Post | src/app/api/webhooks/asaas/route.ts:5-80 | the method's new store and reply are those of `Notification` |
| Payments.RemoteIp | src/app/api/payments/route.ts:126-129 | the first `x-forwarded-for` entry if it is non-empty, else `x-real-ip` if non-empty, else `127.0.0.1`; never empty |
| Payments.FindOrCreateCustomer | src/app/api/payments/route.ts:47-55 | the customer is looked up by CPF digits first, and created only when the lookup finds none; a lookup error is passed on; no payment is created |
| Payments.PixBranch | src/app/api/payments/route.ts:81-114 | the PIX branch keeps the store consistent, and every charge it opens refers to the local payment |
| Payments.CardRecorded | src/app/api/payments/route.ts:147-155 | the card row gets the gateway id and the time, `CONFIRMED` exactly when captured and `FAILED` otherwise, the card token only when the gateway returned a non-empty one, and no other column changes |
| Payments.CardBranch | src/app/api/payments/route.ts:115-175 | the card branch keeps the store consistent, and every charge it opens refers to the local payment |
| Payments.Branch | src/app/api/payments/route.ts:81-181 | the dispatch on `billing_type` keeps the store consistent, and its charges refer to the local payment |
| Payments.Initiation | src/app/api/payments/route.ts:13-194 | 401 exactly without a principal; 403 exactly for a non-client; a missing field gives 400 and an unknown type 404; before these pass nothing is written and the gateway is not called |
| Payments.AdmittedUnfolds | src/app/api/payments/route.ts:57-81 | an admitted request inserts the `PENDING` row under the next id, then runs the branch on it, after the customer calls |
| Payments.CustomerSettledFirst | src/app/api/payments/route.ts:47-69 | the customer lookup and creation are the first gateway calls |
| Payments.ChargeFollowsInsert | src/app/api/payments/route.ts:57-88 | a gateway charge is opened only after the `PENDING` insert succeeded, and refers to the new row's id |
| Payments.WriteIsOneNewPayment | src/app/api/payments/route.ts:57-69 | any write adds exactly one payment row, under the next id, leaving the other rows alone; the row has the principal, the requested type and billing type, and the catalogue price |
| Payments.PixOnlyChangesRow | src/app/api/payments/route.ts:94-104 | the PIX branch changes only its own payment row |
| Payments.IssueOnlyChangesRow | src/lib/create-voucher.ts:51-54 | issuance for a payment changes no other payment row |
| Payments.CardOnlyChangesRow | src/app/api/payments/route.ts:147-169 | the card branch changes only its own payment row |
| Payments.BranchOnlyChangesRow | src/app/api/payments/route.ts:81-181 | each branch changes only its own payment row |
| Payments.PixChargeAwaitsPayment | src/app/api/payments/route.ts:81-114 | a PIX charge replies the local id, `AWAITING_PAYMENT` and the QR code; the row holds the gateway id, the QR fields and the time; the gateway sees the customer calls, the charge and the QR request, in that order |
| Payments.CapturedCardEndsReceived | src/app/api/payments/route.ts:157-169 | a captured card payment replies `"CONFIRMED"` with the new voucher's code, while the stored row ends `RECEIVED` and linked |
| Payments.CapturedCardBranch | src/app/api/payments/route.ts:142-169 | in the card branch a captured charge issues a voucher under the next id, links it to the row and leaves the row `RECEIVED` |
| Payments.DeclinedCardIsFailed | src/app/api/payments/route.ts:142-175 | a charge the gateway did not capture replies 402 with the gateway status, stores `FAILED` and issues no voucher |
| Payments.RefusedAfterInsertStrandsPendingRow | src/app/api/payments/route.ts:115-181 | missing card data or an unknown billing type replies 400 after the insert, and the new row stays `PENDING` |
| Payments.OpenPixCharge | src/app/api/payments/route.ts:81-114 | the method's new store, reply and calls are those of `PixBranch` |
| Payments.ChargeCard | src/app/api/payments/route.ts:115-175 | the method's new store, reply and calls are those of `CardBranch` |
| Payments.SettleCustomer | src/app/api/payments/route.ts:47-55 | the method's customer and calls are those of the lookup-or-create specification |
| Payments.Post | src/app/api/payments/route.ts:13-194 | the method's new store, reply and calls are those of `Initiation` |
| Payments.Proceed | src/app/api/payments/route.ts:47-181 | for a request past every guard, the method's new store, reply and calls are those of `Initiation` |
| VouchersRoute.Purchase | src/app/api/vouchers/route.ts:6-73 | 401 exactly without a principal; 403 exactly for a non-client; 201 exactly when the request is admitted and the insert accepted; every other reply writes nothing |
| VouchersRoute.CreatedVoucherIsOwnedAndActive | src/app/api/vouchers/route.ts:42-65 | on 201 the reply has the new id and the upper-cased code; the one voucher added is active, owned by the principal, of the requested type and linked to no payment; nothing else changes |
| VouchersRoute.GuardReplies | src/app/api/vouchers/route.ts:18-63 | for a client: a body that fails to parse gives 500, a missing type 400, an unknown type 404, a refused insert 500 |
| VouchersRoute.Post | src/app/api/vouchers/route.ts:6-73 | the method's new store and reply are those of `Purchase` |
| Registrar.FieldError | src/app/api/auth/registrar/route.ts:12-31 | no field error exactly when all four fields are present, the password has at least six characters and the role is `cliente` or `validador` |
| Registrar.NewUser | src/app/api/auth/registrar/route.ts:74-80 | the inserted row has the drawn login id, the trimmed name, the lower-cased trimmed email, the hash, and the role whose name was requested |
| Registrar.FirstFree | src/app/api/auth/registrar/route.ts:47-61 | none exactly when every candidate is taken; otherwise the first candidate not in use |
| Registrar.DrawLoginId | src/app/api/auth/registrar/route.ts:47-61 | the bounded loop's login id is empty exactly when all candidates collide, else it is the first free candidate |
| Registrar.Register | src/app/api/auth/registrar/route.ts:6-105 | for a given duplicate check: an unreadable body gives 500 with its message, a field error 400; 409 exactly for valid fields and a taken email; all draws taken give 500; a refused insert gives 500 "Erro ao criar conta: " with the database's message; 201 exactly for valid fields, a free email, a free draw and an accepted insert, which adds exactly the new user under the next id and returns its login id; every other reply writes nothing |
| Registrar.Registration | src/app/api/auth/registrar/route.ts:33-97 | the route as written: 409 exactly when exactly one user holds the lower-cased, untrimmed email; 201 exactly when that check passes, the fields are valid, a draw is free and the insert is accepted; only 201 writes |
| Registrar.PaddedDuplicateIsStored | src/app/api/auth/registrar/route.ts:33-80 | as written, an email that differs from a stored one only by surrounding white space registers, and two users then share an email |
| Registrar.RegistrationCheckingStoredEmail | src/app/api/auth/registrar/route.ts:33-80 | the corrected route checks the email in its stored form, answers 409 exactly when it is held, and keeps registered emails unique |
| Registrar.ChecksInOrder | src/app/api/auth/registrar/route.ts:12-31 | a missing field answers first, then a short password, then an unknown role, each with its own 400 message |
| Registrar.DuplicateEmailConflicts | src/app/api/auth/registrar/route.ts:33-45 | an email the lookup finds, held by exactly one user in lower case, answers 409 and writes nothing |
| Registrar.ExhaustedDrawsFail | src/app/api/auth/registrar/route.ts:63-68 | when the three candidates all collide the reply is 500 and nothing is written |
| Registrar.RegisteredAccount | src/app/api/auth/registrar/route.ts:70-97 | the new user has a login id of the alphabet not in use, the trimmed name, the lower-cased trimmed email, the requested role and the hash; its email passed the check as written; the reply returns that login id |
| Registrar.PaddedEmailPassesAsWrittenCheck | src/app/api/auth/registrar/route.ts:33-45 | the duplicate check as written misses an email that differs from a stored one only by surrounding white space |
| Registrar.EmailCheckKeepsEmailsUnique | src/app/api/auth/registrar/route.ts:74-80 | checking the email in its stored form keeps registered emails unique |
| Registrar.Post | src/app/api/auth/registrar/route.ts:6-105 | the method's new store and reply are those of `Registration` |
| Login.LookupKey | src/app/api/auth/login/route.ts:22 | the lookup key is upper-case, has no white space at its ends, and is empty exactly when the typed id is blank |
| Login.Holder | src/app/api/auth/login/route.ts:18-30 | a user is found exactly when one holds the key, and the user found holds it |
| Login.HolderIsUnique | src/app/api/auth/login/route.ts:19-23 | with unique login ids, the user holding the key is the one found |
| Login.SignIn | src/app/api/auth/login/route.ts:6-67 | a session is set exactly on 200, and only for present fields and a found holder; 400 exactly when a field is missing |
| Login.UniformRejection | src/app/api/auth/login/route.ts:25-39 | an unknown login id and a wrong password give the same 401 reply, without a session |
| Login.SuccessUsesStoredRecord | src/app/api/auth/login/route.ts:41-59 | on success the password matched the hash stored for the holder of the upper-cased, trimmed id; the session carries the stored record; the reply carries only id, login id, name and role |
| Login.HolderSignsIn | src/app/api/auth/login/route.ts:18-59 | the holder of the normalised id, with a matching password, gets its stored record as session |
| Login.RegisteredAccountCanSignIn | src/app/api/auth/login/route.ts:18-50 | a freshly registered account signs in with its login id, typed in any letter case and padded with white space |
| Login.Post | src/app/api/auth/login/route.ts:6-67 | the method only reads the store; its reply and session are those of `SignIn` |
| Middleware.Guard | src/middleware.ts:9-62 | `middleware` as written passes a request exactly when its path starts with `/login`, `/registrar` or `/api/auth`, is static, or carries a verified token whose role may open it; only an invalid token deletes the cookie |
| Middleware.Decide | src/middleware.ts:15-62 | a request passes exactly when it is public or static, or has a verified token whose role may open the path; redirects go to `/login`, `/validar` or `/vouchers`; only an invalid token deletes the cookie |
| Middleware.PublicPathsPass | src/middleware.ts:18-21 | paths under `/login`, `/registrar` and `/api/auth` pass whatever the cookie |
| Middleware.MissingCookieRedirects | src/middleware.ts:32-37 | a protected path without a cookie redirects to `/login` and keeps the cookie |
| Middleware.InvalidTokenDeletesCookie | src/middleware.ts:56-61 | a token that fails to verify redirects to `/login` and deletes the cookie |
| Middleware.AreasKeptToRoles | src/middleware.ts:43-55 | a non-client in the client area goes to `/validar`; a non-validator in the validator area goes to `/vouchers`; an allowed role passes |
| Middleware.RedirectTargetsPass | src/middleware.ts:44-55 | each role's redirect target lets that role in, and `/login` lets everyone in, so redirects do not loop |
| Middleware.WebhookRedirectedToLogin | src/middleware.ts:32-37 | the gateway's cookie-less notification to `/api/webhooks/asaas` is redirected to `/login` |
| Middleware.GuardExemptingWebhook | src/middleware.ts:9-21 | with `/api/webhooks` public, webhook paths pass and every other decision is unchanged |
| Middleware.WebhookReachesRoute | src/middleware.ts:9-21 | with the exemption, the cookie-less notification reaches the webhook route |
| CheckoutPage.PreSubmitError | src/app/checkout/page.tsx:130-133 | the form is stopped with "Preencha seu nome e CPF" exactly when the CPF or the name is all white space |
| CheckoutPage.PixRequest | src/app/checkout/page.tsx:138-147 | the PIX request is billed `PIX`, has no card data, sends the chosen type, the name, the account email and the CPF's digits, and nothing but digits as CPF |
| CheckoutPage.CardRequest | src/app/checkout/page.tsx:179-204 | the card request sends the chosen type and the name; the holder name upper-cased; the card number, CPF, postal code and phone with all but their digits removed; expiry, security code and address number as typed; the card email wins over the account's; the holder's email is never missing |
| CheckoutPage.PixRequestCompleteIff | src/app/checkout/page.tsx:141-147 | the server accepts the PIX request's fields exactly when a type is chosen and the CPF has a digit |
| CheckoutPage.LettersOnlyCpfPassesPageCheck | src/app/checkout/page.tsx:130-144 | a CPF of letters passes the page's check, yet the server refuses the request |
| CheckoutPage.Tick | src/app/checkout/page.tsx:95-122 | a tick counts one more; past 120 it stops with the expiry message; a paid status with a voucher code navigates to `/voucher/` and that code, and the page navigates only so; `FAILED` stops with its message; the error changes only on expiry or `FAILED`; the poll keeps running exactly for other statuses and failed requests |
| CheckoutPage.StoppedStays | src/app/checkout/page.tsx:108-118 | once the interval is cleared, no further tick changes anything |
| CheckoutPage.TicksStopPolling | src/app/checkout/page.tsx:92-102 | enough ticks to pass the limit always stop the poll |
| CheckoutPage.PollStopsWithin121Ticks | src/app/checkout/page.tsx:92-102 | a fresh poll has stopped after 121 ticks, whatever the replies |
| CheckoutPage.RunningPollBounded | src/app/checkout/page.tsx:92-102 | the counter grows by at most one per tick, and while polling it is at most 120 |
| CheckoutPage.PixPolling.constructor | src/app/checkout/page.tsx:157-159 | polling starts at count zero, running, with no error |
| CheckoutPage.PixPolling.OnTick | src/app/checkout/page.tsx:95-122 | the callback's new state is `Tick` of the old, and it fetches exactly when the old count is below 120 |
| CheckoutPage.PixPolling.Run | src/app/checkout/page.tsx:89-125 | the interval run over a sequence of replies leaves the state `Ticks` gives |
| ValidarPage.ResultOf | src/app/validar/page.tsx:42-55 | a voucher is kept exactly from a successful lookup, with its flag; a failed reply keeps its error or "Voucher não encontrado"; a request that threw gives "Erro ao validar. Tente novamente." |
| ValidarPage.Classify | src/app/validar/page.tsx:157-216 | "VALIDO" exactly for a valid, active, unconfirmed voucher; the used panel exactly for a used or confirmed one, titled "VOUCHER UTILIZADO" exactly when confirmed; otherwise the error text or "Voucher não encontrado no sistema." |
| ValidarPage.UsedNeverShownValid | src/app/validar/page.tsx:157-183 | a used voucher is never shown as valid |
| ValidarPage.LookupPanelMatchesStore | src/app/validar/page.tsx:157-183 | for a fresh lookup the page shows "VALIDO" exactly when the stored voucher is active, and "JA UTILIZADO" exactly when it is used |
| ValidarPage.MarkedUsed | src/app/validar/page.tsx:77-89 | the local update clears `valid` and sets status used and `used_at`, and changes no other field |
| ValidarPage.ConfirmedShowsUsedPanel | src/app/validar/page.tsx:179-183 | after a confirmed use the page shows "VOUCHER UTILIZADO" |
| ValidarPage.Page.constructor | src/app/validar/page.tsx:27-31 | the page starts with no code, no result and nothing confirmed |
| ValidarPage.Page.ValidateCode | src/app/validar/page.tsx:33-56 | an input that trims to nothing changes nothing; otherwise the code is the trimmed input upper-cased, the result is the reply's, and confirmation is cleared |
| ValidarPage.Page.ConfirmUse | src/app/validar/page.tsx:58-96 | without a voucher code, or when the request fails, nothing changes; on success the use is confirmed, the result is `MarkedUsed`, and the used panel shows |
| ValidarPage.Page.Reset | src/app/validar/page.tsx:98-102 | the code, the result and the confirmation are cleared |

## Left out

- The database client is replaced by maps. Query-builder semantics are not modelled. A refused write is a `Db.DbReply` parameter; Issuance.InsertAccepted names the refusals issuance relies on.
- Database ids are uuid strings in the source; here they are natural numbers from the store's counter.
- Issuance.Issue: a database write whose error the source ignores is assumed to take effect. Those writes are the voucher link at src/lib/create-voucher.ts:51-54, the webhook's status update at src/app/api/webhooks/asaas/route.ts:51-58, and the PIX and card row updates at src/app/api/payments/route.ts:94-104 and 147-155. `Db.LinkedToPayment` (part of `Db.Consistent`), `AsaasWebhook.Process`, `Payments.PixBranch` and `Payments.CardBranch` rely on this. In the source a refused link leaves the new voucher unlinked and the payment without `voucher_id`, and a later call for that payment inserts a second voucher.
- AtMostOneVoucherPerPayment: holds only under that assumption. With the link at src/lib/create-voucher.ts:51-54 refused, two vouchers can name the same payment.
- IssueIsIdempotent: holds only under that assumption. In the source a refused link makes the second call insert another voucher, because the check at src/lib/create-voucher.ts:10-27 goes through `payments.voucher_id`.
- CreateVoucherForPayment: its new state is `Issue`'s, so it does not model a refused link either.
- Reads are assumed never to fail. In the source a failed read is treated like a missing row: src/app/api/validar/route.ts:27 answers 404, and the registrar's lookups at src/app/api/auth/registrar/route.ts:34-38 and 51-55 treat the email or login id as free.
- A voucher type's `value` is a JSON number in the source (src/lib/database.types.ts:9) and may be fractional; the model uses `int`. The value is only copied into payments and replies, never computed with.
- The typed voucher row has no `payment_id` column, but issuance inserts one (src/lib/database.types.ts:31-39). The model gives `Voucher` a `paymentId` field because issuance and the invariant need it.
- The database is not assumed to enforce a foreign key from payments to users.
- The gateway HTTP client (src/lib/asaas.ts) is modelled only by its answers and a list of calls. The card request's `mobilePhone` field and the charge description's formatting beyond `"Voucher - " + name` are not modelled.
- `asaas_webhook_data` holds the whole JSON body in the source; the model keeps only the event and the payment id.
- JWT signing and verification, bcrypt, and setting or deleting cookies are foreign libraries. They become parameters, or fields of the returned decision.
- Concurrency is not modelled. That covers the read-then-act race between the webhook and the card path in createVoucherForPayment, and overlapping asynchronous poll ticks. Only sequential runs are verified.
- Timers, React state setters, `router.push`, the clipboard, `alert`, loading flags and JSX rendering are left out. The checkout page is modelled only by its per-tick decision and its request building. The validator page is modelled by its state updates and the panel choice.
- The payment-status endpoint the poll calls is not part of this model, so a poll reply is a parameter.
- `toUpperCase`/`toLowerCase` are modelled on ASCII letters only, and `length` counts characters rather than JavaScript's UTF-16 code units.
- The guard's `matcher` configuration (src/middleware.ts:64-66) is left out, as is the JWT secret fallback.
- Payments.CapturedCardEndsReceived: states only that the stored row's `voucher_id` is set, not which voucher it names. `Payments.CapturedCardBranch` states the exact id at the branch level.
- Issuance.InsertAccepted: both voucher inserts, in issuance and in `VouchersRoute.Purchase`, treat an insert as refused when the code is already indexed, or the voucher type or the payment is unknown. This assumes a unique index on `vouchers.code` and foreign keys to the type and payment tables. The typed schema (src/lib/database.types.ts) shows no relationships, so these constraints are assumed, not read from the source.
- The registration route is modelled as written, with the duplicate check on the lower-cased, untrimmed email, so `Db.Consistent` does not claim unique emails. A unique index on `users.email`, if the database has one, shows up only as a refused insert (`Db.DbReply`). The corrected check is `Registrar.RegistrationCheckingStoredEmail` (see Findings).
- The UI pages outside the checkout and validator pages, and the auth context, are not part of this model.

## Findings

| source | as written | input that shows it | evidently intended | confidence | as-written member | corrected member |
|---|---|---|---|---|---|---|
| src/app/api/auth/registrar/route.ts:37 | the duplicate check looks up `email.toLowerCase()`, but line 77 stores `email.toLowerCase().trim()` | a user with email `x` exists; registering `" x"` passes the check and stores `x` a second time | check the same form that is stored, so emails stay unique | medium, not executed | Registrar.PaddedDuplicateIsStored | Registrar.RegistrationCheckingStoredEmail |
| src/middleware.ts:9 | `/api/webhooks` is not a public prefix, so a request without a session cookie is redirected at lines 33-37 | the gateway's POST to `/api/webhooks/asaas`, which carries no cookie, is redirected to `/login` | let the webhook through; it checks its own shared token | medium, not executed | Middleware.WebhookRedirectedToLogin | Middleware.GuardExemptingWebhook |
