# Math tutor platform: a Dafny model of its decision logic

This project models, in Dafny, the decision logic of a math-tutoring platform. Two parts are modelled.

The first is the voice math tutor's conversation controller, in two front ends:
- the Flask endpoint `voice_chatbot/app.py`;
- the command-line loop `voice_chatbot/main.py`.

Each utterance is one state transition over the tutor's difficulty level and its window of the last three `{question, response}` exchanges. The intent classifier (Dialogflow) and the text generator (Gemini) are oracle values passed in.

The second part is the self-contained logic of the web application around it. Storage is maps and sequences passed in and returned, and time is an integer. It covers:
- credential sign-in lockout and the redirect sanitiser;
- the two route guards;
- the plan and membership tables;
- the per-token request counter;
- three slug generators, the unique-slug search and SAML-configuration validation;
- webhook sending and delivery bookkeeping;
- audit-log queries and paging;
- normalisation of the generator's JSON replies and the tutor prompt;
- the password-reset token lifecycle;
- three user-interface state machines: the stage slideshow, the webhook event checkboxes and the team-member permissions.

One module per source file, plus shared modules:
- `Base`: `Option` and `Result`;
- `Text`: string helpers over `seq<char>`;
- `Json`: JSON values with JavaScript truthiness, property access and `String(v)`;
- `Paging`: skip/take windows and page counts;
- `Conversation`: the bounded exchange window both tutor front ends share.

JavaScript's `JSON.parse`, the bcrypt comparison and hash, the random token and the outcome of the HTTP POST are parameters. A thrown exception is an `Err` or a dedicated outcome.

## Model

| member | source | states |
|---|---|---|
| Conversation.Remember | voice_chatbot/app.py:86-88 | the new exchange goes last; with three already held exactly the oldest is dropped; a window of at most three stays at most three |
| Conversation.RememberAllKeepsLastThree | voice_chatbot/main.py:241-244 | after any number of turns the window is the last three of the old window followed by the new exchanges, in order |
| Conversation.WindowIsLastThree | voice_chatbot/app.py:86-88 | starting empty, the window is exactly the last three exchanges, oldest first, and never longer than three |
| WebTutor.Fresh | voice_chatbot/app.py:27-28 | a new tutor has an empty context and difficulty "medium" |
| WebTutor.PromptCarriesQuestion | voice_chatbot/app.py:46-51 | the explanation prompt holds the question verbatim right after the fixed preamble |
| WebTutor.Apology | voice_chatbot/app.py:58-60 | the "too many requests" apology is chosen iff the error text contains "resource_exhausted", the generic one otherwise |
| WebTutor.MathHelp | voice_chatbot/app.py:53-60 | the generated text when generation succeeds; one of the two fixed apologies, never the raw error, when it fails |
| WebTutor.ProcessRequest | voice_chatbot/app.py:62-90 | empty text gives the clarification and changes nothing; set_difficulty stores the parameter verbatim (a missing parameter raises); quit gives the farewell with no state change; anything else, a classifier failure included, is explained and remembered last with the difficulty kept |
| WebTutor.ClassifierFailureIsExplained | voice_chatbot/app.py:70-83 | a classifier failure is handled exactly like any intent other than set_difficulty and quit |
| WebTutor.FailedTurnIsRemembered | voice_chatbot/app.py:83-88 | a generator failure still stores the apology as the turn's response, last in the context |
| WebTutor.ProcessAudio | voice_chatbot/app.py:100-124 | a body that is not JSON gets a 500 from the read inside the `try`; a falsy JSON body (null, false, 0, empty string, list or object) and one whose dict keys, list elements or substrings lack "text" get a 400; a true or non-zero number, or a list or string holding "text", raises in the `in` test or the subscript and gets a 500; an object's text field is processed whatever its kind: a string as a request, a falsy value as "not text", any other value raises; every 500 carries "Server error: " and leaves the tutor untouched, and only a 200 changes it |
| WebTutor.OddBodies | voice_chatbot/app.py:104-124 | an empty list and zero get the 400, a bare "text", a list holding "text" and an object whose text is a number get the 500 |
| WebTutor.RunRemembersExplanations | voice_chatbot/app.py:82-88 | over any requests the context is the old window followed by the explanation turns, through the bounded window |
| WebTutor.ContextIsLastThreeExplanations | voice_chatbot/app.py:86-88 | from a fresh tutor the context is exactly the last three explanation turns, in order, and at most three |
| CliTutor.Fresh | voice_chatbot/main.py:31-32 | the loop starts running with an empty context and difficulty "medium" |
| CliTutor.Speak | voice_chatbot/main.py:176-179 | nothing is spoken for a missing or empty text; any other text is spoken as it is |
| CliTutor.ContextText | voice_chatbot/main.py:125 | the context renders as 'None' iff it is empty, otherwise as a Python list |
| CliTutor.Prompt | voice_chatbot/main.py:122-131 | the prompt opens with the fixed sentence naming the difficulty and the "Previous context: " label, holds exactly the rendered context next, and ends with the question between the f-string's indented blank lines and the three lines of instructions |
| CliTutor.PromptEmbedsState | voice_chatbot/main.py:122-131 | the prompt contains the difficulty, the labelled context and the question |
| CliTutor.EmptyContextIsNone | voice_chatbot/main.py:125 | with an empty context the prompt says "Previous context: None" |
| CliTutor.MathRequest | voice_chatbot/main.py:192-199 | "solve" in any case goes to the solver; otherwise "plot" goes to the plotter; otherwise the generator is asked, a failure giving None |
| CliTutor.CapitalSolveIsKept | voice_chatbot/main.py:144 | a request that says "Solve" only with capitals reaches the solver with the word still in it, because the clean-up removes only lower-case "solve" |
| CliTutor.SolveWinsOverPlot | voice_chatbot/main.py:194-197 | a text mentioning both "solve" and "plot" goes to the solver, with the cleaned-up text |
| CliTutor.Step | voice_chatbot/main.py:219-247 | a stopped loop or a recognition failure changes nothing; set_difficulty stores the classifier's parameter verbatim and announces it, or raises `KeyError` and stops the loop when the parameter is missing; any other intent but quit is a math request whose reply is said and remembered through the window; only those two branches change difficulty or context; the loop stops exactly on quit or a crash |
| CliTutor.NoResultMakesNoRequest | voice_chatbot/main.py:224-226 | with no classifier result the turn does not depend on the tools and changes neither context nor difficulty |
| CliTutor.QuitIsTerminal | voice_chatbot/main.py:233-236 | quit speaks the farewell, stops the loop with the state kept, and every later utterance is ignored |
| CliTutor.FailedTurnIsRemembered | voice_chatbot/main.py:237-244 | a failed generation is remembered with response None and nothing is spoken |
| CliTutor.FirstFailureCrashes | voice_chatbot/main.py:222-247 | as written, a classifier failure on the first utterance ends the loop with an unbound `response` |
| CliTutor.FailureRepeatsPreviousReply | voice_chatbot/main.py:246-247 | as written, a later classifier failure repeats the previous turn's reply whatever was said |
| CliTutor.StepIntended | voice_chatbot/main.py:224-247 | the corrected loop does nothing when the classifier gives no result and otherwise acts as written |
| CliTutor.IntendedStepIsQuiet | voice_chatbot/main.py:224-247 | the corrected loop neither crashes nor speaks on a classifier failure, and agrees with the loop as written on every other verdict |
| CliTutor.StepAdds | voice_chatbot/main.py:224-247 | in the loop as written and in the corrected one, a turn adds its exchange through the bounded window when it is an ordinary intent, and leaves the context alone otherwise |
| CliTutor.RunRemembers | voice_chatbot/main.py:219-247 | over any utterances, for the loop as written (which stops at a crash or quit) and for the corrected one, the context is the old window followed by the turns' exchanges, through the bounded window |
| CliTutor.ContextIsLastThree | voice_chatbot/main.py:219-247 | from a fresh start, for either loop, the context is exactly the last three remembered exchanges, in order, and at most three |
| CliTutor.StoppedStaysStopped | voice_chatbot/main.py:233-236 | once the loop has stopped, later utterances change nothing and add nothing to memory |
| CliTutor.FirstFailureEndsRun | voice_chatbot/main.py:222-247 | as written, a first utterance the classifier does not recognise ends the run, so nothing said afterwards is remembered; the corrected loop carries on as if it had not been heard |
| Auth.DefaultConfig | lib/auth/config.ts:27-29 | at most 5 attempts and a 300-second window when the environment sets neither |
| Auth.Teams | lib/auth/config.ts:103-107 | one team entry per membership, in order, carrying id, name and role |
| Auth.Attempt | lib/auth/config.ts:60-108 | a locked account is refused before the password is compared, with nothing changed; a wrong password adds exactly one failure and locks iff the count reaches the maximum; a right password on an unverified address is refused with the counter kept; success happens exactly otherwise, clears counter and lock, and hands out the account's id, e-mail and one {id, name, role} entry per membership, in order |
| Auth.Authorize | lib/auth/config.ts:40-108 | missing credentials are refused before any lookup; an unknown user or one without a password gets the same message as a wrong password; a known user with a password gets the attempt's outcome, and the account is written back with the attempt's counter and lock; only the signing-in account can change |
| Auth.LockoutThenRecovery | lib/auth/config.ts:60-95 | through whole requests, a wrong password that reaches the maximum locks the account; the right password is then refused as locked for the whole window, with nothing changed, and accepted after it with the counter and the lock cleared |
| Auth.WrongPasswordRelocks | lib/auth/config.ts:67-79 | once the counter has reached the maximum, every further wrong password locks again at once |
| Auth.LockHoldsForWindow | lib/auth/config.ts:60-63 | after a lock every attempt within the window is refused, whatever the password |
| Auth.CounterNeverDecreasesWithoutSuccess | lib/auth/config.ts:67-95 | without a right password the counter never goes down and grows by at most one per attempt |
| Auth.Redirect | lib/auth/config.ts:139-143 | the target always starts with the base URL; the URL passes unchanged iff it starts with the base URL; a relative path is appended to the base; anything else becomes the base URL itself |
| Auth.RedirectIdempotent | lib/auth/config.ts:139-143 | sanitising a sanitised target changes nothing |
| RouteGuard.IsPublic | middleware.ts:6-29 | a path is public iff some listed entry equals it or is followed by "/" at its start |
| RouteGuard.SegmentsOnly | middleware.ts:29 | an entry covers every path below it, and no longer name that merely starts with it and does not continue with `/` |
| RouteGuard.RootCoversOnlyRoot | middleware.ts:7-29 | the root entry covers exactly "/" and the paths starting with "//" |
| RouteGuard.TierOf | middleware.ts:58 | a missing or empty tier claim counts as FREE; any other claim is kept |
| RouteGuard.Barred | middleware.ts:67-72 | a tier is barred iff some protected prefix starts the path and its list lacks the tier |
| RouteGuard.Guard | middleware.ts:25-79 | public and static paths pass; otherwise a failed token check goes to /auth/error, no token goes to sign-in carrying the path, and a barred tier goes to /dashboard; no other redirect exists |
| RouteGuard.ListedTiersPass | middleware.ts:61-72 | FREE, PREMIUM, ENTERPRISE and a missing tier are never redirected by the table as written |
| RouteGuard.DashboardIsGuarded | middleware.ts:25-41 | /dashboard is neither public nor static, so its token is checked |
| RouteGuard.ProMemberLoops | middleware.ts:58-72 | as written, a token whose tier claim is PRO asking for /dashboard is redirected to /dashboard |
| RouteGuard.MembershipTiersPass | middleware.ts:61-72 | with the tier names of the membership table (FREE, PRO, ENTERPRISE) no member is ever redirected, so no loop remains |
| SubscriptionGuard.MaxTeamMembers | middleware/subscription.ts:70-81 | the starter price gives 5, pro 20 and enterprise unbounded, compared in that order; any other price gives 0 |
| SubscriptionGuard.Guard | middleware/subscription.ts:15-68 | exactly the six listed paths bypass the checks; no token or an unknown user goes to sign-in; no subscription goes to billing except under /settings/billing; 403 iff an /api/teams path meets a count that has reached the cap |
| SubscriptionGuard.NoPrefixMatching | middleware/subscription.ts:17 | a path below any public path other than the root is not public, and without a session it is sent to sign-in |
| SubscriptionGuard.GateAgreesWithPlans | middleware/subscription.ts:47-81 | with distinct price ids the gate's cap for each plan is that plan's own cap, and the gate forbids exactly when the plan check would not allow |
| SubscriptionGuard.NoSubscriptionGoesToBilling | middleware/subscription.ts:41-44 | without a subscription every other path leads to billing, and the billing page stays reachable |
| Plans.AllPlans | lib/subscription.ts:11-43 | three plans with caps 5, 20 and unbounded, carrying the starter, pro and enterprise price ids |
| Plans.UserSubscription | lib/subscription.ts:45-55 | none iff the user has no active subscription; otherwise an active one of the user's, no older than any other |
| Plans.FindPlan | lib/subscription.ts:61-63 | none iff no plan has the price id; otherwise the first plan that has it |
| Plans.MentionsFeature | lib/subscription.ts:66 | true iff some feature text contains the requested one, ignoring ASCII case |
| Plans.CheckAccess | lib/subscription.ts:57-67 | false without an active subscription or a plan for its price; otherwise true iff some feature of the plan contains the requested one, ignoring case |
| Plans.CheckTeamMemberLimit | lib/subscription.ts:69-99 | {false, 0, 0} without a subscription or plan; otherwise the plan's cap, the count, and allowed iff the count is below the cap |
| Plans.EnterpriseNeverLimited | lib/subscription.ts:30-43 | an enterprise subscriber with distinct price ids is always allowed and has no cap |
| Plans.Selected | lib/subscription.ts:115-130 | exactly the records of the subscription within the optional inclusive period, each as many times as it is stored |
| Plans.Total | lib/subscription.ts:132 | the total is the sum of the selected quantities, never negative when they are not |
| Plans.RecordUsage | lib/subscription.ts:101-109 | one record is appended, carrying the caller's subscription id, quantity and optional description and the current time, and the existing ones are kept |
| Plans.RecordingAddsToTotal | lib/subscription.ts:101-132 | recording raises that subscription's total by exactly the quantity and leaves other totals alone |
| Membership.Parse | types/membership.ts:1 | a name denotes a tier iff it is that tier's name |
| Membership.CapabilitiesGrowWithTier | types/membership.ts:15-49 | every capability a tier has, each higher tier has too, and no limit shrinks going up |
| Membership.TierExclusives | types/membership.ts:15-49 | branding and single sign-on are ENTERPRISE only; social access and project creation are everywhere; team sizes 5/20/100 and storage 1/10/100 |
| Membership.Entry | types/membership.ts:3-13 | teamSize and storageLimit are numbers, every other key a capability |
| Membership.TierName | hooks/useMembership.ts:6 | the session's tier, or FREE when it is missing or empty |
| Membership.Row | hooks/useMembership.ts:7 | the table row of the named tier, FREE's without a claim, undefined for a name outside the table |
| Membership.HasFeature | hooks/useMembership.ts:9-11 | the row's entry when it is truthy, false otherwise; reading an undefined row throws |
| Membership.GetLimit | hooks/useMembership.ts:13-15 | the row's team size or storage limit; an undefined row throws |
| Membership.IsUpgradeRequired | hooks/useMembership.ts:22 | exactly the negation of hasFeature's truthiness, throwing when it throws |
| Membership.UpgradeMatchesTable | hooks/useMembership.ts:9-22 | for a known tier an upgrade is required exactly for what its row withholds, and a higher tier never needs an upgrade a lower one does not |
| Membership.UnknownTierThrows | hooks/useMembership.ts:6-11 | a tier name outside the table, such as PREMIUM, makes hasFeature and isUpgradeRequired throw |
| RateLimit.Check | lib/rate-limit.ts:20-36 | the token's counter rises by exactly one and no other changes; the call is accepted iff the new count is below the limit; the limit header is the limit; remaining is limit minus count when accepted, 0 when refused |
| RateLimit.AcceptedCalls | lib/rate-limit.ts:25-35 | n calls accept exactly min(n, limit-1-count) of them, and the counter grows by n, refused calls included |
| RateLimit.AtMostLimitMinusOne | lib/rate-limit.ts:27-35 | from a fresh counter at most limit-1 calls per token succeed, and that many do once enough calls are made |
| Slugs.ServiceSlug | lib/team-service.ts:208-214 | the team service's slug is always a slug: lower-case letters, digits and single inner dashes, never a dash at either end |
| Slugs.TeamBaseSlug | lib/boxyhq/utils.ts:113-116 | the base slug of the unique-slug search is always a slug in the same sense |
| Slugs.UtilSlug | lib/utils.ts:24-31 | the generic generator, which deletes punctuation and squashes white space, underscores and dashes, also always yields a slug |
| Slugs.SlugFixpoint | lib/utils.ts:24-31 | a slug is left unchanged by each of the three generators |
| Slugs.SlugsIdempotent | lib/team-service.ts:208-214 | generating a slug from a generated slug changes nothing, for each of the three generators |
| Slugs.SameSlugTwoWays | lib/boxyhq/utils.ts:113-116 | hyphenating each disallowed character and then collapsing the dashes gives the same slug as hyphenating each run, so the team service and the single-sign-on helper agree on every name |
| Slugs.PunctuationDeleted | lib/utils.ts:28 | the generic generator deletes a punctuation character between two lower-case, space-free pieces without leaving a dash |
| Slugs.UniqueSlug | lib/boxyhq/utils.ts:118-126 | the search returns the first of `base`, `base-1`, `base-2`, ... that is not taken: the result is free and every earlier candidate is taken |
| Teams.ChosenSlug | lib/team-service.ts:77 | the team's slug is the caller's slug when it is non-empty, and otherwise the one generated from the name, which is always a well-formed slug |
| Teams.Create | lib/team-service.ts:72-105 | creation fails with the unique-key error exactly when some team already has the chosen slug (the caller's non-empty one, else the one generated from the name), writing nothing; otherwise the team is stored under that slug, its creator is its only member, as OWNER, no other membership changes, and every membership still belongs to a stored team |
| Teams.CreateKeepsConstraints | lib/team-service.ts:72-87 | creating a team under a free, non-empty slug always succeeds, keeps slugs unique and memberships attached to stored teams, and a second team then asking for that slug is refused |
| Teams.AddMember | lib/team-service.ts:137-149 | adding a membership fails with the foreign-key error when the team does not exist and with the unique-key error when the pair is already a member, and in no other case; otherwise it adds just that pair, with MEMBER when no role is given, and every membership still belongs to a stored team |
| Teams.UpdateMember | lib/team-service.ts:151-167 | a role change fails exactly when the membership is missing, with the database's update error; otherwise it sets that role and leaves every other membership as it was |
| Teams.RemoveMember | lib/team-service.ts:169-178 | a removal fails exactly when the membership is missing, with the database's delete error; otherwise it drops that pair and keeps the rest |
| Teams.FindMember | lib/team-service.ts:180-206 | a lookup finds a role exactly when the pair is a member, and returns the stored role |
| Teams.CreatorIsSoleOwner | lib/team-service.ts:72-87 | after creation the role check passes for the creator as OWNER and fails for anyone else, whatever roles are asked for |
| Teams.DefaultRoleIsMember | lib/team-service.ts:140 | a member added without a role passes a MEMBER check and fails an OWNER or ADMIN one |
| Teams.AddThenRemove | lib/team-service.ts:137-178 | adding a member and then removing them restores the store |
| Teams.UpdateThenFind | lib/team-service.ts:151-206 | reading back a changed role gives the new role, and every other membership reads as before |
| TeamUtils.TeamSlugFromDomain | lib/boxyhq/utils.ts:7-17 | the slug is the host up to its first colon, and there is none exactly when that part contains `localhost` or `.vercel.app` |
| TeamUtils.CustomHostKept | lib/boxyhq/utils.ts:12-14 | a custom host without a port is its own team slug |
| TeamUtils.PortIgnored | lib/boxyhq/utils.ts:9 | appending a port never changes the answer |
| TeamUtils.LocalhostIsNoTeam | lib/boxyhq/utils.ts:12-16 | a host that contains `localhost` anywhere names no team |
| TeamUtils.HasTeamRole | lib/boxyhq/utils.ts:49-66 | the role check fails for a non-member; for a member it passes exactly when their role is among those asked for |
| TeamUtils.MoreRolesNeverHurt | lib/boxyhq/utils.ts:65 | asking for more roles never turns a yes into a no |
| TeamUtils.FormatSamlConfig | lib/boxyhq/utils.ts:86-93 | each displayed field is the configured value when it is non-empty, and blank otherwise |
| TeamUtils.Missing | lib/boxyhq/utils.ts:100 | the missing fields are exactly the listed fields that are absent or empty |
| TeamUtils.ValidateSamlConfig | lib/boxyhq/utils.ts:98-107 | there is no message exactly when all four fields are filled; otherwise the message lists the missing names, joined by commas |
| TeamUtils.MissingKeepsOrder | lib/boxyhq/utils.ts:99-100 | filtering keeps the order of the required-field list |
| TeamUtils.ReportedInOrder | lib/boxyhq/utils.ts:99-103 | missing names are reported in the order entityId, acsUrl, idpUrl, certificate |
| TeamUtils.OneFieldMissing | lib/boxyhq/utils.ts:102-104 | when exactly one field is missing, the message names only that field |
| TeamUtils.FormattingKeepsVerdict | lib/boxyhq/utils.ts:86-107 | validating the displayed form of a configuration gives the same verdict as validating the configuration |
| Webhooks.CreateWebhook | lib/webhook/webhook-service.ts:39-58 | a new webhook keeps the given fields, is named after its description or, when there is none, its url, and is active unless told otherwise |
| Webhooks.FindByTeam | lib/webhook/webhook-service.ts:268-279 | the listing holds exactly the team's webhooks, each named after its description or url |
| Webhooks.ListedUnderItsName | lib/webhook/webhook-service.ts:51-55 | a webhook created through the service is listed unchanged, under the name it was given |
| Webhooks.CreateDelivery | lib/webhook/webhook-service.ts:124-166 | recording fails for an unknown webhook; otherwise it appends one record with the webhook's url, the outcome and the error message, and status 500 when there was no response |
| Webhooks.RequestHeaders | lib/webhook/webhook-service.ts:185-195 | the request carries the three recorded headers, plus the HMAC signature of the payload exactly when the webhook has a secret |
| Webhooks.SendWebhook | lib/webhook/webhook-service.ts:168-240 | an unknown, inactive or unsubscribed webhook is refused in that order and nothing is recorded; otherwise exactly one record is appended, successful iff the POST got a 2xx answer, with that status, and otherwise with status 500 and the error axios rejected with, which is passed on after the record is written |
| Webhooks.RejectedAnswerIsFailure | lib/webhook/webhook-service.ts:201-237 | an answer outside 2xx, which axios rejects, is recorded as status 500 and unsuccessful with axios's "Request failed with status code" message, and the send fails |
| Webhooks.NewestFirst | lib/webhook/webhook-service.ts:116-120 | a webhook's deliveries are exactly its own, and the most recent comes first |
| Webhooks.ListDeliveries | lib/webhook/webhook-service.ts:114-121 | page 1 unless given; a page below 1 is refused; otherwise at most ten deliveries, exactly ten when that many remain, newest first, from the row offset `(page - 1) * 10` |
| Webhooks.GetWebhookDeliveries | lib/webhook/webhook-service.ts:242-266 | page 1 of 10 unless given; refused exactly when the skip is negative; otherwise the page's deliveries, newest first, as many as the window holds, together with the count of all the webhook's deliveries |
| Webhooks.SentDeliveryListedFirst | lib/webhook/webhook-service.ts:168-240 | the delivery a send records is the top of the first page, and it is marked successful iff the POST got a 2xx answer |
| Webhooks.RefusedSendLeavesNoTrace | lib/webhook/webhook-service.ts:173-183 | a send stopped by one of the checks fails and leaves every page of the listing as it was |
| Paging.Window | lib/webhook/webhook-service.ts:118-119 | a negative skip is an error and nothing else is; a window holds as many consecutive rows as the size of `take`, or all that are left after `skip` when fewer; a non-negative take reads from the offset on, a negative one ends `skip` rows before the end |
| Paging.Length | lib/webhook/webhook-service.ts:118-119 | a window holds the size of `take` rows, or every row left after `skip` when fewer remain, and none once `skip` reaches the total |
| Paging.Start | lib/webhook/webhook-service.ts:118-119 | a non-negative take starts the window at `skip`; a negative take ends it `skip` rows before the last row |
| Paging.NewestFirstSelects | lib/boxyhq/audit-service.ts:116-118 | a filtered listing holds exactly the stored rows the filter keeps |
| Paging.NewestFirstStartsWithLatest | lib/boxyhq/audit-service.ts:118 | the most recently stored row the filter keeps comes first |
| Paging.CeilDiv | lib/boxyhq/audit-service.ts:133 | for a positive limit the page count is the least `n` with `total <= n * limit`; a zero limit gives `Infinity`, or `NaN` for an empty total |
| Paging.RowOnItsPage | lib/boxyhq/audit-service.ts:206-224 | with a positive page size, every row appears on page `k / limit + 1`, at position `k % limit`, and that page is within the reported count |
| TeamAudit.OrNull | lib/boxyhq/audit-service.ts:74-77 | an empty or missing name is stored as null, and a non-empty one as it is |
| TeamAudit.Create | lib/boxyhq/audit-service.ts:62-91 | recording appends one log with the team, action, actor and target of the request; empty names become null and missing metadata becomes JSON null |
| TeamAudit.WhereAsWritten | lib/boxyhq/audit-service.ts:109-113 | with an end date, only the end bound survives the spread; otherwise the start bound, if any, is kept |
| TeamAudit.WhereIntended | lib/boxyhq/audit-service.ts:109-113 | the corrected filter keeps both date bounds, and the action only when it is non-empty |
| TeamAudit.StartDateIgnored | lib/boxyhq/audit-service.ts:111-112 | as written, a log from before the start date is returned when an end date is also given; the corrected filter excludes it |
| TeamAudit.IntendedKeepsRange | lib/boxyhq/audit-service.ts:109-113 | the corrected filter keeps exactly the team's logs between the two dates |
| TeamAudit.Selected | lib/boxyhq/audit-service.ts:116-118 | a query returns exactly the stored logs the filter matches |
| TeamAudit.Serialize | lib/boxyhq/audit-service.ts:147-148 | a serialized log keeps the log, and both of its time stamps are the creation time |
| TeamAudit.SerializeAll | lib/boxyhq/audit-service.ts:136-153 | each log of the page is serialized in place |
| TeamAudit.PageOf | lib/boxyhq/audit-service.ts:116-156 | the page of the matching logs the skip and take select, serialized, with the page count `ceil(total / limit)` and the current page; a negative skip is an error |
| TeamAudit.FindByTeam | lib/boxyhq/audit-service.ts:93-157 | the requested page (by default page 1 of 10) of the team's logs, serialized, with the page count and the current page; every log on it is within the end date when one is given, and otherwise from the start date on, so with both dates the start date is lost |
| TeamAudit.FindByTeamIntended | lib/boxyhq/audit-service.ts:93-157 | the corrected query: the same paging, and every log on the page lies within both date bounds |
| TeamAudit.FindByTeamAndAction | lib/boxyhq/audit-service.ts:175-204 | the logs returned are exactly the team's stored logs that carry the requested action when one is non-empty and lie within the end date when one is given, or from the start date on otherwise |
| TeamAudit.FindByTeamAndActionIntended | lib/boxyhq/audit-service.ts:175-204 | the corrected query: exactly the team's logs with the requested action that lie within both date bounds |
| TeamAudit.AgreeWithOneDate | lib/boxyhq/audit-service.ts:109-113 | with at most one date given, both queries as written return what the corrected ones do |
| TeamAudit.EarlyLogReturned | lib/boxyhq/audit-service.ts:181-186 | as written, a team log from before the start date is among the matches when an end date after it is given; the corrected query leaves it out |
| TeamAudit.EmptyActionIgnored | lib/boxyhq/audit-service.ts:183 | an empty action filters nothing, as written and in the corrected query |
| TeamAudit.List | lib/boxyhq/audit-service.ts:206-225 | a page of the team's logs (by default 10 per page), as many as the window holds, with the total, the page, the page size and the page count; refused exactly when the skip is negative |
| TeamAudit.EveryLogListed | lib/boxyhq/audit-service.ts:206-225 | paging through the listing with the default size reaches every log of the team, each on a page within the count |
| TeamAudit.CreatedLogListedFirst | lib/boxyhq/audit-service.ts:62-225 | a log just recorded is the first entry of its team's first page |
| AuditTrail.Log | lib/audit/audit-service.ts:25-45 | logging appends one entry carrying the request's fields and the current time; a storage error is passed on and nothing is stored |
| AuditTrail.NonEmpty | lib/audit/audit-service.ts:73-82 | an action or target-type list filters only when it is non-empty |
| AuditTrail.WhereOf | lib/audit/audit-service.ts:65-83 | the time range applies only when both dates are given; the list filters apply only when they are non-empty; the user query never filters by target type |
| AuditTrail.Query | lib/audit/audit-service.ts:85-114 | the requested page (by default page 1 of 50) of the matching entries, newest first, as many as the window holds; every entry on it matches; the total, the page count and the page size are reported; refused exactly when the skip is negative |
| AuditTrail.TeamAuditLogs | lib/audit/audit-service.ts:47-119 | every entry returned belongs to the team and, with a non-empty target-type list, has one of those types |
| AuditTrail.UserAuditLogs | lib/audit/audit-service.ts:121-186 | every entry returned was made by the user |
| AuditTrail.TargetTypesIgnoredForUsers | lib/audit/audit-service.ts:137-150 | a target-type option passed to the user query changes nothing |
| AuditTrail.Defaults | lib/audit/audit-service.ts:56-63 | with no options, the team query returns page 1 of 50 and counts every entry of the team |
| AuditTrail.HalfFiltersIgnored | lib/audit/audit-service.ts:67-82 | a single date, an empty action list or an empty target-type list does not narrow the query |
| AuditTrail.DatesBoundTheEntries | lib/audit/audit-service.ts:67-72 | with both dates given, every entry returned lies between them |
| AuditTrail.LoggedEntryComesFirst | lib/audit/audit-service.ts:25-186 | an entry just logged is the first one its actor sees on the first page, stamped with the logging time |
| Json.Prop | lib/aitutor/responseProcessor.ts:22-28 | reading a property of an object gives its value exactly when the key is present; numbers and booleans have no own properties |
| Json.Get | lib/response-handler.ts:62 | reading a property of `null` or `undefined` is a TypeError |
| Json.OptGet | lib/response-handler.ts:46 | optional chaining through `null` or `undefined` gives `undefined` |
| Json.Fallback | lib/aitutor/geminiHandler.ts:130-133 | `a \|\| b` is `a` when `a` is truthy and `b` otherwise |
| Json.FencedBody | lib/response-handler.ts:32 | the body found is the text between the leftmost opening fence and the first closing fence after it; there is none exactly when no opening fence is followed by a closing one |
| Json.JsonSource | lib/response-handler.ts:32-38 | without a fenced block the whole reply is parsed; with one, a strictly shorter text is parsed |
| ResponseHandler.Extract | lib/response-handler.ts:29-43 | the parsed value is the fenced block's when there is one and the whole reply's otherwise; a parse failure gives null |
| ResponseHandler.FormatSteps | lib/response-handler.ts:45-48 | falsy or missing steps give the placeholder; string steps are trimmed, so the shown text never starts or ends with white space; any other value throws |
| ResponseHandler.NoCaretRemains | lib/response-handler.ts:62-68 | the rewritten expression contains no `^` |
| ResponseHandler.PlainExpressionKept | lib/response-handler.ts:62-68 | an expression that contains none of the patterns is plotted unchanged |
| ResponseHandler.FormatVisual | lib/response-handler.ts:50-77 | without a plot type and data the fallback plot of `x` over [-10, 10] is used; otherwise every field of the plot is kept except the expression, which is rewritten; a non-string expression throws |
| ResponseHandler.PlottedExpressionIsJavaScript | lib/response-handler.ts:50-77 | any plot that reaches the board has a string expression without `^` |
| ResponseHandler.ProblemText | lib/response-handler.ts:83-90 | a problem without a question or a solution gives the empty text; a complete one starts with its question and ends with its solution; a null problem throws |
| ResponseHandler.ProblemTexts | lib/response-handler.ts:82-91 | the texts are those of the complete problems, none of them empty, and there are none exactly when no problem is complete; a null problem throws |
| ResponseHandler.FormatPractice | lib/response-handler.ts:79-93 | no problems give the empty text; a non-array with a length, or a null problem, throws; otherwise the text is empty exactly when no problem is complete |
| ResponseHandler.CompleteProblemListed | lib/response-handler.ts:82-92 | the question of every complete problem appears in the practice text |
| ResponseHandler.TopicLines | lib/response-handler.ts:111-113 | each listed topic gives one bullet line, there is none exactly when no topic is complete, and a null topic throws |
| ResponseHandler.Heading | lib/response-handler.ts:100-106 | a truthy title comes first, followed by a truthy description |
| ResponseHandler.FormatConcepts | lib/response-handler.ts:95-118 | missing concepts give the empty text; it throws exactly when related topics have a length but are not an array, or include a null |
| ResponseHandler.ConceptsShown | lib/response-handler.ts:100-117 | listed related topics bring the `Related Topics:` heading, and a truthy title is shown |
| ResponseHandler.ProcessAIResponse | lib/response-handler.ts:120-132 | the board's steps are the question followed by the formatted steps, and its other sections are the formatters' results; it throws exactly when one of the formatters throws |
| ResponseHandler.UnparseableReplyGivesFallbackBoard | lib/response-handler.ts:39-42 | a reply that is not JSON still gives a board: the question with the placeholder steps, the fallback plot, and empty practice and concepts |
| ResponseProcessor.Data | lib/aitutor/responseProcessor.ts:19 | a string response is parsed; any other response is used as it is |
| ResponseProcessor.Section | lib/aitutor/responseProcessor.ts:32-35 | a string section is kept; a missing one is empty; an object is replaced by its inner field, or by the empty text when that field is falsy; a null section throws |
| ResponseProcessor.VisualSection | lib/aitutor/responseProcessor.ts:33 | a truthy `Visual` wrapper is unwrapped, and anything else is kept as it is |
| ResponseProcessor.Process | lib/aitutor/responseProcessor.ts:16-55 | it fails exactly when the data cannot be destructured or a section is null, and then gives the fixed error board; otherwise each section is normalised |
| ResponseProcessor.TextSectionsRoundTrip | lib/aitutor/responseProcessor.ts:22-41 | a board whose sections are texts comes back unchanged |
| ResponseProcessor.WrappedSectionsUnwrapped | lib/aitutor/responseProcessor.ts:32-35 | sections wrapped one level deep under their own names are unwrapped |
| ResponseProcessor.UnparseableTextFails | lib/aitutor/responseProcessor.ts:42-53 | a text that does not parse gives the error board |
| Gemini.StyleSentence | lib/aitutor/geminiHandler.ts:19-29 | a style adds a sentence exactly when it is one of the three known styles |
| Gemini.PromptWithLayout | lib/aitutor/geminiHandler.ts:16-32 | the prompt begins with the subject and the quoted question, and ends with the format instructions |
| Gemini.PromptLayout | lib/aitutor/geminiHandler.ts:12-88 | the prompt with the fixed format instructions has that layout for every style |
| Gemini.PromptWithDeterminesRequest | lib/aitutor/geminiHandler.ts:16-29 | for the two subjects, equal prompts come from the same subject, the same question and the same style sentence |
| Gemini.Answer | lib/aitutor/geminiHandler.ts:98-147 | a reply that parses gives a success board with a default for every falsy section; a parse failure gives the processing-error board; a failed generation or a null reply gives the generating-error board |
| Gemini.SectionsAlwaysFilled | lib/aitutor/geminiHandler.ts:127-146 | every section of every board, success or error, is truthy |
| Gemini.EmptyReplyGivesDefaults | lib/aitutor/geminiHandler.ts:127-135 | a reply with none of the sections gives the all-default board, as a success |
| PasswordReset.RequestReset | pages/api/auth/reset-password.ts:14-42 | a missing e-mail is refused with 400 and an unknown one with 404; a known one stores a token valid for 24 hours, mails it and replies 200, whatever the mailer does, since the mailer catches its own errors; a token text already in use throws before anything is written; the users are never changed |
| PasswordReset.Redeem | pages/api/auth/reset-password.ts:43-79 | missing fields give 400 and an unknown token gives 400; an expired token is deleted and refused; a valid one sets only its owner's password and is deleted |
| PasswordReset.Handle | pages/api/auth/reset-password.ts:8-11 | methods other than POST and PUT get 405 and change nothing |
| PasswordReset.TokenIsSingleUse | pages/api/auth/reset-password.ts:73-76 | a redeemed token is refused as invalid the next time, and the second attempt changes nothing |
| PasswordReset.ResetRoundTrip | pages/api/auth/reset-password.ts:31-78 | the mailed token, redeemed within a day, sets that user's password, and the token store is as before the request |
| PasswordReset.LateTokenRefused | pages/api/auth/reset-password.ts:59-64 | a token presented after its day is refused and deleted, and the password is kept |
| Slideshow.AllSlides | components/StagesSlideshow.tsx:21-24 | the overview slide comes first, followed by the stages in order |
| Slideshow.Paginate | components/StagesSlideshow.tsx:48-56 | paging records the direction and always lands on an existing slide |
| Slideshow.WrapsAtBothEnds | components/StagesSlideshow.tsx:52-53 | next from the last slide goes to the first, and previous from the first goes to the last |
| Slideshow.StepsUndoEachOther | components/StagesSlideshow.tsx:48-56 | a step forward and a step back cancel out |
| Slideshow.ForwardWithinOneLap | components/StagesSlideshow.tsx:48-56 | within one lap, `k` steps forward move `k` slides on, going round once past the last slide |
| Slideshow.FullCycle | components/StagesSlideshow.tsx:48-56 | as many steps forward as there are slides return to the starting slide |
| Slideshow.Jump | components/StagesSlideshow.tsx:153-156 | a dot shows its slide, animating forward iff the dot lies to the right of the current slide |
| Slideshow.Wheel | components/StagesSlideshow.tsx:58-66 | a wheel event pages only when it is more horizontal than vertical, and forward iff it moves right |
| Slideshow.DragEnd | components/StagesSlideshow.tsx:43-46 | a drag whose power passes the threshold to the left pages forward, one past it to the right pages back, and a weaker one does nothing |
| Slideshow.IndexAlwaysOnASlide | components/StagesSlideshow.tsx:48-159 | whatever the inputs, the slide shown exists |
| WebhookForm.Init | components/webhook/webhook-form.tsx:35-40 | a new form is empty and active; an edit form starts with the webhook's own values |
| WebhookForm.Without | components/webhook/webhook-form.tsx:59 | filtering removes every copy of the event and adds nothing |
| WebhookForm.WithoutKeepsOthers | components/webhook/webhook-form.tsx:59 | filtering keeps every other event, each as often as it occurred |
| WebhookForm.Toggle | components/webhook/webhook-form.tsx:56-62 | a present event is filtered out, and an absent one is appended |
| WebhookForm.ToggleEffect | components/webhook/webhook-form.tsx:56-62 | after a toggle the event is present iff it was absent, exactly once when added, and every other event keeps its count |
| WebhookForm.ToggleTwiceRestores | components/webhook/webhook-form.tsx:56-62 | toggling an absent event twice gives back the same list |
| WebhookForm.Submit | components/webhook/webhook-form.tsx:42-54 | the submitted object carries the form's values, with the id only when an existing webhook with a non-empty id is edited |
| WebhookForm.UntouchedEditRoundTrip | components/webhook/webhook-form.tsx:35-54 | submitting an untouched edit form gives back the webhook as it was |
| TeamMembers.ViewerRole | components/teams/TeamMembers.tsx:17-19 | the viewer's role is that of a membership with their user id, and there is none exactly when they have no session user or no membership |
| TeamMembers.CanManageIffAdminOrOwner | components/teams/TeamMembers.tsx:17-21 | with one membership per user, the viewer may manage members exactly when they are an admin or an owner of the team |
| TeamMembers.ChangeRole | components/teams/TeamMembers.tsx:23-61 | a non-manager gets the permission toast and nothing is sent; otherwise a PATCH with the new role is sent, and then a reload and a success toast, or an error toast |
| TeamMembers.RemoveMember | components/teams/TeamMembers.tsx:63-101 | as for a role change, but a DELETE, sent only after the confirmation is accepted; a declined confirmation does nothing |
| TeamMembers.RequestsNeedPermission | components/teams/TeamMembers.tsx:23-101 | a request is sent exactly when the viewer may manage members (and, for a removal, has confirmed), and the permission toast shows exactly when they may not |
| TeamMembers.ExceptOwner | components/teams/TeamMembers.tsx:152 | the filter drops OWNER and keeps every other role that was listed |
| TeamMembers.SelectorOptions | components/teams/TeamMembers.tsx:151-153 | the role selector offers every role except OWNER |
| TeamMembers.RowControls | components/teams/TeamMembers.tsx:144-177 | a row has a role selector and a Remove button exactly when the viewer may manage members and the member is not an owner, and it has an actions cell exactly when the viewer may manage members |
| TeamMembers.OwnersProtected | components/teams/TeamMembers.tsx:144-167 | an owner's row offers no way to change or remove them, and no choice in the selector makes anyone an owner |

## Left out

- Speech and audio: microphone capture, recognition, playback and text-to-speech are hardware and third-party services. The recognised text (or its absence) is an input, and `speak` is modelled only as its guard.
- Dialogflow and Gemini: their calls are oracle values, a verdict (`NoResult` or an intent with parameters) and a generation (text or failure). Prompt quality is not a property of the model.
- sympy and matplotlib: the solver and the plotter are functions passed in. Only the dispatch between them is modelled.
- Prisma, the mailer, Stripe and the single-sign-on services: storage is maps and sequences passed in and returned, the mail a request sends is recorded in its outcome (the mailer catches and logs its own errors, so whether it arrived changes nothing), and the team store's constraints (the unique team slug, the team foreign key and the membership key) are explicit error cases. The users table is not modelled, so the foreign key from a membership to its user is not checked.
- Cryptography: the webhook HMAC, the bcrypt comparison and hash, and the random token and secrets are function parameters or inputs.
- Time: `Date.now()` and `new Date()` are an integer argument. The cache eviction of the request counter is not modelled; the counter map only grows.
- Floating point: slideshow wheel deltas, drag offsets and velocities, and JSON numbers are integers. `Math.ceil(total / limit)` is computed exactly, with `Infinity` and `NaN` for a zero limit.
- Letter case: only ASCII letters change case. Unicode case mapping and normalisation are not modelled.
- Concurrency: Flask's development server handles requests on threads, and the one module-level tutor's `context` and `difficulty_level` are read and written without a lock. The model runs requests one at a time, as if serialised, so lost or interleaved updates between simultaneous requests are not modelled.
- WebTutor.ProcessAudio: the words of a `TypeError` Python raises (from `in` on a number, from indexing a list or string by "text", from building the classifier request from a non-string) depend on the Python and protobuf versions. Only the 500 and the "Server error: " prefix are stated.
- Logging, the `isLoading` and `disabled` states of the member table, and every React rendering detail not named in the table above.
- The Next.js `config.matcher` lists of both middlewares: which requests reach a middleware is decided by the framework before its code runs.
- The webhook service's `updateWebhook`, `deleteWebhook`, `getWebhook`, `getWebhooks`, `get`, `update`, `delete` and `create`: each is a single storage call with no decision in it.
- The team service's `findById`, `findBySlug`, `findByUser`, `update` and `delete`, and the helpers `getTeamFromContext` and `getUserTeams`: storage lookups without decision logic.
- The webhook form's `AVAILABLE_EVENTS` list: it only lists the checkboxes shown, and `toggleEvent` does not consult it.
- Plans.Selected: the usage records are listed in storage order rather than newest first. Which records appear and how often is stated; the total does not depend on the order.
- TeamMembers.SelectorOptions: the order of the options follows the order of the `Role` enumeration, which is defined by the database schema. The model fixes OWNER, ADMIN, MEMBER and states only which roles are offered.
- CliTutor.Repr: only states that the quoted text has two quote characters around it. The escaping rules of Python's `repr` are written in the function body but not stated as a contract.
- Gemini.PromptWithDeterminesRequest: stated for any block of format instructions rather than for the fixed block itself. The fixed block is a long literal and the statement covers it as one instance.
- Auth.AttemptAll: a helper that runs a sequence of sign-in attempts. It exists for stating the counter property and is not itself a source operation.
- Gemini.HandleRequest: passing the prompt to the generator and the outcome to `Answer` has no contract of its own; `Gemini.Answer` and `Gemini.PromptLayout` carry the properties.

## Findings

| source | as written | input that shows it | evidently intended | confidence | as-written member | corrected member |
|---|---|---|---|---|---|---|
| voice_chatbot/main.py:224-247 | with no classifier result the loop body skips both branches but still prints and speaks `response`, which is the previous turn's reply or, on the first turn, an unbound local | a first utterance the classifier does not recognise: `run` ends with `UnboundLocalError`; on a later turn, the previous reply is spoken again | a turn without a classifier result does nothing | not executed | CliTutor.FirstFailureEndsRun | CliTutor.IntendedStepIsQuiet |
| middleware.ts:61-72 | every protected route allows the tiers FREE, PREMIUM and ENTERPRISE, but the membership table (types/membership.ts:1), the session type (lib/types/next-auth.d.ts:29) and the user script (scripts/create-user.ts:17) use PRO, not PREMIUM. The `jwt` callback (lib/auth/config.ts:119-128) does not copy `membershipTier` into the token yet, so today every token reads FREE at middleware.ts:58 | once the tier claim is filled, a token with tier `PRO` requesting `/dashboard` is redirected to `/dashboard`, and so on forever | every membership tier of the table (FREE, PRO, ENTERPRISE) passes | latent, not executed | RouteGuard.ProMemberLoops | RouteGuard.MembershipTiersPass |
| lib/boxyhq/audit-service.ts:111-112 | the end-date spread replaces the whole `createdAt` filter, so with both dates the start bound is lost | `startDate` and `endDate` both given, and a log created before `startDate`: it is returned | logs between the two dates | not executed | TeamAudit.EarlyLogReturned | TeamAudit.FindByTeamAndActionIntended |

Each defect is modelled both ways:
- `CliTutor.Run` takes a `CliTutor.Loop`: `AsWritten` steps with `CliTutor.Step`, and `Corrected` with `CliTutor.StepIntended`, which agrees with `Step` on every verdict but the missing one. `CliTutor.ContextIsLastThree` holds for both loops.
- `TeamAudit.FindByTeam` and `TeamAudit.FindByTeamAndAction` apply the filter as written, `TeamAudit.WhereAsWritten`. `TeamAudit.FindByTeamIntended` and `TeamAudit.FindByTeamAndActionIntended` apply `TeamAudit.WhereIntended`. `TeamAudit.AgreeWithOneDate` shows the two agree unless both dates are given.
- `RouteGuard.Guard` takes the route table: `RouteGuard.PROTECTED_AS_WRITTEN` holds the tier lists as written, and `RouteGuard.PROTECTED` the corrected ones.
