# ComplianceGuard core, modelled in Dafny

ComplianceGuard is a browser demo of a compliance-enforcement workflow. A staff member
submits a workplace action. The action is classified against policy, and a compliance
officer reviews the resulting cases on a dashboard. This project models the parts of the
application that hold logic:

- **Authentication context** (`auth.dfy`, module `Auth`). The in-memory account table
  `MOCK_USERS` and the signed-in user form a class `AuthState`. Its methods are `Login`,
  `LoginAsAdmin`, `Signup` and `Logout`. `Valid()` states the table invariant: every key
  is its user's employee id, and the signed-in user is the user of their own entry.
  `IsAuthenticated` and `IsAdmin` are functions of the signed-in user.
- **Alert list** (`alerts.dfy`, module `Alerts`). The two seeded cases, and the two
  list updates `addAlert` (prepend a new pending case) and `updateStatus` (set the
  status of every case with a given id). Both are functions from the old list to the new one.
- **Compliance engine** (`compliance_engine.dfy`, module `ComplianceEngine`). The domain
  records, the fixed verdict table of `analyzeAction` with its ALLOW/LOW default, and
  how a dashboard alert is built from a verdict (`NewAlert`, `CaseId`). The module-level
  arrays `activeAlerts` and `escalations` become the fields of one `DashboardStore` object.
  `AddAlertToDashboard` and `AddEscalation` prepend onto them.
- **Agent run protocol** (`agent_client.dfy`, module `AgentClient`). `callComplianceAgent`
  takes a token reply and a run reply, given as input records, and returns the requests
  it issued plus its result or error message. The token request is the API-key extension
  grant of section 4.5 of RFC 6749. `waitForAgentResult` is a method with the source's
  `while` loop. It runs over a finite sequence of status replies and stops at the first
  status other than `pending`/`running`. It then selects the last `assistant` message of
  the thread and checks that message's content.
- **Route guard** (`route_guard.dfy`, module `RouteGuard`; `app_routes.dfy`, module
  `AppRoutes`). The three-way decision of `ProtectedRoute`, and the `requireAdmin` flag
  each guarded route of the router passes to it.
- Two support modules. `Wrappers` holds `Option` and `Result`. `JsSemantics` holds the
  JavaScript rules the code depends on: property lookup on an object literal (which also
  finds Object.prototype members), truthiness of optional strings under `||` and `!`,
  and the decimal rendering of an integer in a template literal.

Inputs the model takes as parameters: the configured API key and agent id; every HTTP
reply (its `ok` flag and the JSON fields the code reads); the integer that
`Math.floor(1000 + Math.random() * 9000)` produces (the subset type `CaseSuffix`,
1000..9999); and the two `new Date().toISOString()` timestamps, one per seeded alert action.

## Model

| member | source | states |
|---|---|---|
| `Auth.MockUsers` | src/lib/authContext.tsx:24-55 | The `MOCK_USERS` literal has exactly the keys EMP-4729, EMP-0001 and EMP-0002. Each entry's user carries its own key as `employeeId`. A user has the admin role iff they have admin clearance. |
| `Auth.MockAccounts` | src/lib/authContext.tsx:24-55 | The shipped table is well keyed. It holds one staff account (EMP-4729 / password123) and two administrator accounts (EMP-0001, EMP-0002 / admin123). Each is accepted only through the path for its own role. |
| `Auth.AuthState.constructor` | src/lib/authContext.tsx:58 | The context starts with the shipped table and nobody signed in, and satisfies the invariant. |
| `Auth.AuthState.Login` | src/lib/authContext.tsx:68-76 | Returns true iff the id is in the table, the password matches and the role is staff. On success the entry's user is signed in. On failure the signed-in user is unchanged. The frame leaves the table untouched either way. The invariant is preserved. |
| `Auth.AuthState.LoginAsAdmin` | src/lib/authContext.tsx:78-86 | The same rule as Login, but for the administrator role. |
| `Auth.LoginPathsExclusive` | src/lib/authContext.tsx:68-86 | No credentials pass both the staff check and the administrator check. A staff account never signs in through `loginAsAdmin`, and an administrator never through `login`. |
| `Auth.AuthState.Signup` | src/lib/authContext.tsx:88-111 | Returns false iff the id is already a key, and then nothing changes. Otherwise the table gains exactly the entry for this id: the given password, name and department, Standard clearance and staff role. Every other entry is kept. The new user is signed in, and the well-keyed invariant is preserved. |
| `Auth.AuthState.Logout` | src/lib/authContext.tsx:113-116 | Nobody is signed in afterwards. |
| `Auth.SignupThenLogin` | src/lib/authContext.tsx:68-111 | After a successful signup (followed by a logout), `login` with the same id and password succeeds and signs the new user in. |
| `Auth.AdminIsAuthenticated` | src/lib/authContext.tsx:126-127 | `isAdmin` implies `isAuthenticated`. |
| `Auth.IsAuthenticated` | src/lib/authContext.tsx:126 | `!!user`: true iff somebody is signed in. |
| `Auth.IsAdmin` | src/lib/authContext.tsx:127 | `user?.role === 'admin'`: true iff somebody is signed in and their role is admin; false when nobody is. |
| `Auth.SignupRefusesAsWritten` | src/lib/authContext.tsx:90 | `if (MOCK_USERS[employeeId])` as written is true iff the id is a key of the table or one of the twelve Object.prototype names. Both an account object and an inherited function are truthy. |
| `Auth.SignupAsWrittenRefusesPrototypeNames` | src/lib/authContext.tsx:90-92 | As written, the existence test refuses "toString", which is not a key of the table. |
| `Alerts.InitialMockAlerts` | src/lib/alertsContext.tsx:13-50 | The seeded list holds two cases, CASE-9247 then CASE-9243, both pending. Each action carries its own load-time timestamp. |
| `Alerts.InitialIdsAreCaseIds` | src/lib/alertsContext.tsx:15-33 | The seeded ids have the generated form: CaseId(9247) and CaseId(9243). |
| `Alerts.AddAlert` | src/lib/alertsContext.tsx:55-66 | The new list is one longer. Its head is the new alert, which carries the verdict unchanged. The old list follows in order. |
| `Alerts.UpdateStatus` | src/lib/alertsContext.tsx:68-70 | Length and order are kept. Every case with the id gets the new status and keeps all its other fields. Every other case is unchanged. |
| `Alerts.UpdateStatusKeepsCases` | src/lib/alertsContext.tsx:69 | A status change never alters any case's id or verdict. |
| `Alerts.UpdateStatusNoMatch` | src/lib/alertsContext.tsx:69 | When no case has the id, the list is unchanged. |
| `Alerts.UpdateStatusIdempotent` | src/lib/alertsContext.tsx:69 | Applying the same status change twice equals applying it once. |
| `Alerts.UpdateNewCase` | src/lib/alertsContext.tsx:55-70 | Updating the id of a just-added case changes that case. The older cases change only where they share its id. |
| `ComplianceEngine.CaseId` | src/lib/complianceEngine.ts:36 | `CASE-${n}` starts with "CASE-", and what follows is all digits and reads back as n. |
| `ComplianceEngine.CaseIdShape` | src/lib/complianceEngine.ts:36 | A case id is "CASE-" followed by four digits, and those digits read back as the suffix. |
| `ComplianceEngine.CaseIdInjective` | src/lib/complianceEngine.ts:36 | Different suffixes give different case ids. |
| `JsSemantics.DecimalRoundTrip` | src/lib/complianceEngine.ts:36 | Reading the decimal rendering of an integer back gives the integer. |
| `JsSemantics.FourDigits` | src/lib/complianceEngine.ts:36 | An integer in 1000..9999 renders as exactly four characters. |
| `ComplianceEngine.DashboardStore.constructor` | src/lib/complianceEngine.ts:31 | The module-level stores start empty: `activeAlerts` (line 31) and `escalations` (line 165). |
| `ComplianceEngine.NewAlert` | src/lib/complianceEngine.ts:33-40 | The alert carries the verdict's fields unchanged. Its id is CaseId(suffix), its employee is the action's employee name, its timestamp is "Just now" and its status is pending. |
| `ComplianceEngine.DashboardStore.AddAlertToDashboard` | src/lib/complianceEngine.ts:33-42 | `activeAlerts` gains the new alert at index 0, with the previous alerts following unchanged. `escalations` is untouched. |
| `ComplianceEngine.DashboardStore.AddEscalation` | src/lib/complianceEngine.ts:167-169 | The response is at index 0 of `escalations`, with the previous entries following in order. `activeAlerts` is untouched. |
| `ComplianceEngine.Responses` | src/lib/complianceEngine.ts:46-152 | The `responses` literal has exactly the five known action types as keys. Every entry carries the analysed action, a decision other than ALLOW, and at least one citation and one recommendation. |
| `ComplianceEngine.DefaultResponse` | src/lib/complianceEngine.ts:154-161 | The `||` default: ALLOW at LOW risk for the analysed action, with no citations and two recommendations. |
| `ComplianceEngine.AnalyzeAction` | src/lib/complianceEngine.ts:45-162 | The result's action is the input action. The decision is ALLOW iff the action type is none of the five keys. The risk follows the decision (ALLOW/LOW, WARN/MEDIUM, ESCALATE/HIGH, BLOCK/CRITICAL). A known type has at least one citation and at least one recommended action. Any other type has no citations and two recommended actions. |
| `ComplianceEngine.KnownVerdicts` | src/lib/complianceEngine.ts:46-151 | export_customer_list and post_sensitive_data are BLOCK/CRITICAL. external_share and access_restricted are ESCALATE/HIGH. bypass_approval is WARN/MEDIUM. |
| `ComplianceEngine.AnalyzeActionAsWritten` | src/lib/complianceEngine.ts:154-161 | The lookup as written: an Object.prototype name yields that inherited member instead of a verdict. A known type yields its table entry and any other type the ALLOW default. |
| `ComplianceEngine.AnalyzeActionAsWrittenLeaksPrototype` | src/lib/complianceEngine.ts:154 | As written, the action type "constructor" evaluates to the inherited Object constructor, not to a verdict. |
| `ComplianceEngine.AnalyzeActionAgreesAsWritten` | src/lib/complianceEngine.ts:154-161 | The source and the corrected lookup agree on every action type except the inherited Object.prototype names, and only on those does the source return something other than a verdict. |
| `AgentClient.TokenRequestBody` | src/lib/ibm.ts:12 | The token request body is the API-key grant prefix followed by the key, unencoded. |
| `AgentClient.TokenRequestBodyInjective` | src/lib/ibm.ts:12 | Different keys give different token request bodies. |
| `AgentClient.CallComplianceAgent` | src/lib/ibm.ts:7-60 | The token request always comes first. If the token reply is not ok, no run request follows, and the error is `error_description` if non-empty, else "Token request failed". Otherwise one run request follows. It carries the token's `access_token` as bearer, the agent id, the caller's thread id unchanged, and the input as a `user` message. A run reply that is not ok fails with its `message`, else "Agent execution failed". An ok reply without a run id fails. The call succeeds iff both replies are ok and the run id is present. On success it returns the run data and the token's `access_token`. |
| `AgentClient.CallFailuresHaveMessages` | src/lib/ibm.ts:15-56 | Every failure of the call carries a non-empty message. |
| `AgentClient.FirstSettled` | src/lib/ibm.ts:71-78 | Gives the position of the first status reply that is neither `pending` nor `running`, every earlier reply being in flight. It gives none iff every reply is in flight. |
| `AgentClient.PollOutcome` | src/lib/ibm.ts:65-99 | What one wait amounts to. If some reply settles (a status other than pending/running, including `failed` or a missing one), the wait returns that first settled reply. It has made one status fetch per reply up to and including that one, then one messages fetch on the reply's `thread_id`, and its result is the selected message or error. If every given reply is in flight, the wait is still polling after one status fetch per reply. |
| `AgentClient.WaitForAgentResult` | src/lib/ibm.ts:65-99 | The polling loop's outcome (requests issued, final status, result) is exactly `PollOutcome` of the same run, token, replies and messages. |
| `AgentClient.AssistantMessages` | src/lib/ibm.ts:89 | The filter keeps only assistant messages, and is empty iff the thread has none. |
| `AgentClient.AssistantMessagesMembers` | src/lib/ibm.ts:89 | A message is in the filtered list iff it is in the thread and its role is assistant. |
| `AgentClient.AssistantMessagesAppend` | src/lib/ibm.ts:89 | The filter keeps order: filtering `s + t` gives the filtered `s` followed by the filtered `t`. |
| `AgentClient.AssistantMessagesSingle` | src/lib/ibm.ts:89 | A single message is kept iff it is an assistant message. Together with the append lemma, this fixes the filter's result for every thread. |
| `AgentClient.LastAssistant` | src/lib/ibm.ts:89-90 | The position of an assistant message with no assistant message after it, or none iff the thread has no assistant message. |
| `AgentClient.LastOfFilterIsLastAssistant` | src/lib/ibm.ts:89-90 | The last element of the filtered list is the thread's last assistant message. |
| `AgentClient.SelectFinalMessage` | src/lib/ibm.ts:89-98 | Fails with "AI Agent did not return a valid message content." when there is no assistant message, or when the last one's content has no first entry. Otherwise returns that last assistant message. |
| `AgentClient.SelectedIsLastAssistant` | src/lib/ibm.ts:89-98 | A successful selection is an assistant message of the thread, with a first content entry and no assistant message after it. |
| `RouteGuard.ProtectedRoute` | src/components/ProtectedRoute.tsx:10-22 | Not authenticated redirects to /signin, whatever `requireAdmin` is. Authenticated with `requireAdmin` but not admin redirects to /access-denied. The children render iff authenticated and (not `requireAdmin` or admin). `requireAdmin` defaults to false. |
| `RouteGuard.Guard` | src/components/ProtectedRoute.tsx:11-21 | Driven by the signed-in user: nobody signed in goes to /signin. A non-admin on a `requireAdmin` route goes to /access-denied. The children render iff somebody is signed in and, on a `requireAdmin` route, is an admin. |
| `RouteGuard.UnguardedAdmitsAnyUser` | src/components/ProtectedRoute.tsx:10-21 | With the default flag, exactly the signed-in users see the page. Everyone else goes to /signin. |
| `RouteGuard.AdminNeverRedirected` | src/components/ProtectedRoute.tsx:13-21 | An administrator is never redirected, whatever the flag. |
| `RouteGuard.StaffDeniedAdminRoutes` | src/components/ProtectedRoute.tsx:17-19 | A signed-in staff member is sent to /access-denied by an administrator route. |
| `AppRoutes.Path` | src/routes.tsx:25-56 | Each route is mounted at an absolute path, one starting with `/`. |
| `AppRoutes.PathInjective` | src/routes.tsx:25-56 | No two routes share a path. |
| `AppRoutes.RequiresAdmin` | src/routes.tsx:25-56 | A route passes `requireAdmin` iff its path is /compliance or /audit. |
| `AppRoutes.Visit` | src/routes.tsx:25-56 | A visitor who is signed out goes to /signin. A signed-in non-admin on an admin route goes to /access-denied. The page renders iff the visitor is signed in and, on an admin route, is an admin. |
| `AppRoutes.RouteAccess` | src/routes.tsx:25-56 | `/compliance` and `/audit` render only for administrators. The index route and `/about` render for anyone signed in. A visitor who is not signed in goes to /signin on all four. |

## Findings

| source | as written | input that shows it | evidently intended | confidence | as-written member | corrected member |
|---|---|---|---|---|---|---|
| src/lib/complianceEngine.ts:154 | the lookup `responses[action.action_type]` indexes an object literal, so inherited Object.prototype names are found too, and they are truthy, so the default is skipped | an action whose `action_type` is "constructor" gets the Object constructor function back, not a ComplianceResponse | every type outside the five keys gets the ALLOW/LOW default | medium, not executed; the shipped form offers only the five known types | `ComplianceEngine.AnalyzeActionAsWrittenLeaksPrototype` | `ComplianceEngine.AnalyzeAction` |
| src/lib/authContext.tsx:90 | `if (MOCK_USERS[employeeId])` also finds inherited Object.prototype names | `signup("toString", ...)` returns false although no account "toString" exists | refuse exactly the ids already in the table | medium, not executed | `Auth.SignupAsWrittenRefusesPrototypeNames` | `Auth.AuthState.Signup` |

The rest of the model uses the corrected lookups (own keys only).
`ComplianceEngine.AnalyzeActionAgreesAsWritten` shows that the two versions differ only
on the twelve inherited names. The signup finding has no effect on `login`: for an
inherited name the looked-up value has no matching `password`, so the source rejects it
anyway, and `Accepts` rejects it too.

## Left out

- HTTP: the proxy URLs, the instance id in the paths, the headers other than
  Authorization, `.json()` decoding and its failures, and `fetch` rejections on transport
  errors are not modelled. Replies are records holding the fields the code reads.
- Timing and asynchrony: the 1500 ms sleep before each status fetch and the
  `async`/`await` scheduling are not modelled.
- WaitForAgentResult: the source loop has no bound. So the model runs over a finite
  sequence of status replies and does not claim termination. A server that never leaves
  `pending`/`running` shows up only as the StillPolling outcome.
- WaitForAgentResult: the status fetch's HTTP `ok` flag is not modelled because the source
  ignores it. A failing fetch whose body has no `status` therefore ends the loop like a
  terminal status.
- Hardening the source does not have is not modelled: poll timeouts, cancellation, typed
  error classes, and validation of the decision and risk values in the agent's
  payload. Parsing the payload (`JSON.parse` in src/components/StaffInterface.tsx) belongs
  to a presentation component and is not part of this model.
- SelectFinalMessage: the messages fetch's HTTP `ok` flag is not modelled, because the source
  ignores it, and neither is a reply body that is not a list of message objects. In the
  source, a non-array body (such as a JSON error object) makes `messages.filter` throw a
  TypeError, and so does a `null` element at `m.role`. The caller then gets that exception
  instead of "AI Agent did not return a valid message content.". The model's
  `seq<ThreadMessage>` input cannot express either case.
- CallComplianceAgent: a successful token reply without `access_token` is not treated as a
  failure, because the source does not check it. The token is an `Option`, and a missing
  token would be sent as "Bearer undefined".
- CallComplianceAgent: truthiness is modelled only for string fields (missing or empty
  means falsy). A non-string `error_description`, `message` or `run_id` is not modelled.
- SelectFinalMessage: a message without a `content` array is modelled with the empty list,
  which the source treats the same way. A content entry is either present or absent
  (null/undefined); its fields beyond `text` are not modelled.
- `Math.random`: the case-id suffix is a parameter in 1000..9999. Nothing makes suffixes
  unique. Two alerts can share an id, and `UpdateStatus` then changes both, as the source does.
- `localStorage` and JSON persistence of the signed-in user are browser I/O and are not
  modelled (src/lib/authContext.tsx:61-66, 72, 109, 115).
- AuthState.Valid: the invariant "the signed-in user is the user of their own table entry"
  holds only without the localStorage restore on mount. That restore can bring back a user
  who signed up in an earlier page load, whose account is no longer in the reset table.
- The React providers, `useAuth`/`useAlerts` and their "outside a provider" errors, and
  `console` logging are React wiring with no logic to model.
- Presentation components (ArchitecturePage, AboutPage, AuditLog, ComplianceDashboard,
  AccessDenied, RootLayout, SignIn, StaffInterface), src/routes.ts, src/main.tsx and
  src/App.tsx are UI, and they are not part of this model. From src/routes.tsx only the
  guard flags are modelled.
- Concurrent submissions and React state batching are not modelled.
- The alert list and `DashboardStore` hold `seq` values that the operations replace. The
  identity of the JavaScript arrays (aliasing) is not modelled.
