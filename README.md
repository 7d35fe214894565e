# Marketplace screens, modelled in Dafny

A model of the client side of a freelance marketplace (a Next.js application over a
hosted Postgres backend). Employers post jobs, freelancers bid, and an accepted bid
becomes a project. The two parties then exchange messages, request and approve
milestone payments, upload files, review each other and raise disputes, which an
admin resolves. Everything the repository itself decides lives in its screens: which
rows each screen lists, the guards on each form, the sequence of writes each button
performs, and the small pieces of view state (notification list and badge, message
thread, uploaded-file list) that the handlers update.

The model has three layers:

- `Backend.Store` is the backend as one in-memory table per entity (`Schema` holds the
  records). Tables are kept in creation order. Every write is a method taking `fails`, the
  backend's answer. A failed write changes nothing, and each write touches exactly one
  table.
- Each screen or component is a class. Its fields are the screen's state, and each event
  handler is a method. A handler runs its guard, then its writes in order; the first
  failure skips the remaining steps. Each method's `ensures` states the new tables and
  the new view state.
- The logic the screens share is pure functions, with lemmas about them:
  - listings (`NewestFirst`, `Filter`) and the role gates;
  - the accept-bid and review workflows, stated over table values (`EmployerJobs.AcceptBid`,
    `Reviews.SubmitReview`);
  - the dashboard tiles and the monthly analytics buckets;
  - the search filters (`Common.Matches`).

Navigation is modelled as a returned target, and query failures as boolean inputs.
Values from outside the program are parameters:
- server ids and timestamps;
- the random file token;
- the public URL function;
- the result of sign-up;
- the number parser.

Modules follow the source files:

- `Register`: app/register/page.tsx
- `Layout`: app/dashboard/layout.tsx
- `DashboardHome`: app/dashboard/page.tsx
- `AdminUsers`: app/dashboard/admin/users/page.tsx
- `EmployerJobs`: app/dashboard/employer/jobs/page.tsx
- `FreelancerJobs`: app/dashboard/freelancer/jobs/page.tsx
- `PostJob`: app/dashboard/employer/post-job/page.tsx
- `Projects`: app/dashboard/projects/page.tsx
- `Messages`: app/dashboard/messages/page.tsx
- `Milestones`: components/milestone-payment.tsx
- `Reviews`: components/rating-review.tsx
- `Disputes`: components/dispute-form.tsx and app/dashboard/disputes/page.tsx
- `Notifications`: components/notification-bell.tsx
- `FileUpload`: components/file-upload.tsx
- `Talent`: app/dashboard/employer/talent/page.tsx
- `Tiles`: app/dashboard/freelancer/page.tsx, app/dashboard/employer/page.tsx, app/dashboard/admin/page.tsx
- `Analytics`: components/analytics/analytics-dashboard.tsx
- `Schema`: types/supabase.ts
- `Backend`, `Common`: shared

## Model

| member | source | states |
|---|---|---|
| Register.InitialTab | app/register/page.tsx:31 | the tab opened first is the `type` query parameter when present and non-empty, otherwise the freelancer tab |
| Register.OrNull | app/register/page.tsx:88 | an optional text column is null exactly when the input is empty, and otherwise the input itself |
| Register.NewProfile | app/register/page.tsx:79-98 | a profile row exists only for the freelancer and employer roles; it carries the new user's id, role and name, a freelancer's skills, parsed rate (null for an empty rate) and portfolio, or an employer's company and required skills |
| Register.Destination | app/register/page.tsx:100-116 | registration lands on the dashboard exactly when the service returned a session, and on the login page exactly when it did not |
| Register.RegisterForm.constructor | app/register/page.tsx:35-47 | every field of both tabs starts empty |
| Register.RegisterForm.HandleRegister | app/register/page.tsx:49-127 | the page moves on exactly when e-mail, password and name were filled and sign-up returned a user; only then is that user's profile row appended (unless its insert fails), and the destination is the one `Destination` picks |
| Layout.LayoutScreen | app/dashboard/layout.tsx:49-79 | the configuration error screen appears exactly when there is an error message; without one the spinner is shown while the session loads, ahead of everything else, and once loaded the sidebar shell is rendered exactly for a signed-in user |
| Layout.RedirectIffNothing | app/dashboard/layout.tsx:43-47 | the visitor is sent to the login page exactly when the frame renders nothing |
| Layout.Subtitle | app/dashboard/layout.tsx:86-90 | the subtitle is "Freelancer Dashboard", "Employer Dashboard" or "Admin Dashboard" for those roles, and empty exactly for every other role |
| Layout.MenuLinks | app/dashboard/layout.tsx:97-235 | the sidebar starts with Dashboard, ends with Messages, Payments and Settings, and holds the role's own entries in between |
| Layout.RoleLinksStayInArea | app/dashboard/layout.tsx:107-208 | every entry of a role's own block leads below `/dashboard/<role>/`, and a user of any other role sees only the shared entries |
| DashboardHome.RouteFor | app/dashboard/page.tsx:20-30 | once loading is over, a freelancer, employer or admin is forwarded to `/dashboard/<role>`; nobody is forwarded while loading or with any other role |
| DashboardHome.FourthTileLabel | app/dashboard/page.tsx:86 | the fourth tile reads "Earnings" exactly for a freelancer and "Payments" for every other role |
| DashboardHome.ForwardMatchesSidebar | app/dashboard/page.tsx:20-30 | the page a user is forwarded to is the parent of every sidebar entry of that user's role, and a user forwarded nowhere has no role entries |
| AdminUsers.AllUsers | app/dashboard/admin/users/page.tsx:41-50 | the fetched list holds every account, the latest-created first, position by position |
| AdminUsers.FilterUsers | app/dashboard/admin/users/page.tsx:86-91 | on rows carrying the account's e-mail and a name, as the page intends: the shown users are exactly the listed users whose lower-cased e-mail, name or role contains the lower-cased term, in listed order |
| AdminUsers.EmptySearchShowsAll | app/dashboard/admin/users/page.tsx:86-91 | on rows carrying the account's e-mail, as the page intends: an empty search term shows the whole list unchanged |
| AdminUsers.StatusBadge | app/dashboard/admin/users/page.tsx:135-145 | the badge is the default one exactly for `active` and the destructive one exactly for `suspended` |
| AdminUsers.TargetStatus | app/dashboard/admin/users/page.tsx:179-187 | Activate writes `active` and Suspend writes `suspended`, and nothing else is ever written |
| AdminUsers.ButtonSetsBadge | app/dashboard/admin/users/page.tsx:135-187 | with the written status read back into the listed row, as the page intends: after a press the chosen user's badge is the pressed button's variant and every other account is unchanged |
| AdminUsers.ManageUsers.constructor | app/dashboard/admin/users/page.tsx:32-35 | the page starts with no users, an empty search and no selected user |
| AdminUsers.ManageUsers.Shown | app/dashboard/admin/users/page.tsx:86-91 | on the intended rows, the rows on screen are a subsequence of the fetched users |
| AdminUsers.ManageUsers.FetchUsers | app/dashboard/admin/users/page.tsx:41-60 | on success the list becomes every account, newest first; on failure it is kept |
| AdminUsers.ManageUsers.SelectUser | app/dashboard/admin/users/page.tsx:151 | "View Details" makes that user the selected one |
| AdminUsers.ManageUsers.UpdateUserStatus | app/dashboard/admin/users/page.tsx:62-84 | on success exactly the account with that id gets the status and the list is re-read; on failure neither changes |
| AdminUsers.ManageUsers.PressStatusButton | app/dashboard/admin/users/page.tsx:179-187 | a button press updates the selected user to the button's status, as `UpdateUserStatus` does |
| AdminUsers.FetchedRow | app/dashboard/admin/users/page.tsx:43-45 | a fetched row carries the profile's id, nullable name and role, and no top-level e-mail or status (the account's columns come back nested under `auth_users`) |
| AdminUsers.FetchedUsers | app/dashboard/admin/users/page.tsx:41-50 | fetchUsers as written yields one such row per profile, newest first, position by position |
| AdminUsers.FilterUsersAsWritten | app/dashboard/admin/users/page.tsx:86-91 | the search test as written throws exactly when some row has no top-level e-mail, or a non-matching e-mail and a null name; otherwise it keeps exactly the rows whose e-mail, name or role matches, in order |
| AdminUsers.FetchedListThrows | app/dashboard/admin/users/page.tsx:45-88 | with at least one profile the page as written never renders a list, whatever the term |
| AdminUsers.BadgeAsWritten | app/dashboard/admin/users/page.tsx:135-145 | the badge as written is the default one exactly for a present `active` and the destructive one exactly for a present `suspended` |
| AdminUsers.BadgeNeverShowsPress | app/dashboard/admin/users/page.tsx:62-67 | the buttons write user metadata the query never reads, so every fetched row's badge is the neutral one, before and after any press |
| EmployerJobs.OwnJobs | app/dashboard/employer/jobs/page.tsx:52-64 | the jobs list holds exactly the current employer's jobs, each once in table order reversed (newest first) |
| EmployerJobs.BidsForJob | app/dashboard/employer/jobs/page.tsx:76-93 | the bids list holds exactly the bids on that job, newest first |
| EmployerJobs.AcceptOffered | app/dashboard/employer/jobs/page.tsx:215-216 | the Accept button is offered for a bid exactly while the bid is `pending` and its job `open` |
| EmployerJobs.NewProject | app/dashboard/employer/jobs/page.tsx:123-131 | the project row inserted for an accepted bid: its id, the job, the current employer, the bid's freelancer, the bid's price, `in_progress`, progress 0 and its creation month |
| EmployerJobs.AcceptBid | app/dashboard/employer/jobs/page.tsx:103-151 | the three writes on the tables as values: bids and jobs keep their length, and projects either stay as they were or gain exactly the project of an accepted bid with that id |
| EmployerJobs.AcceptBidTouchesOnlyTargets | app/dashboard/employer/jobs/page.tsx:103-117 | accepting rewrites only the status of the bid with that id and of the job with that id; the other bids on the same job and every other row stay as they were |
| EmployerJobs.AcceptBidPartialFailure | app/dashboard/employer/jobs/page.tsx:103-151 | a failed bid update changes nothing; a failed job update leaves the bid accepted with no rollback; a re-read without a row skips the project yet reports success; success is reported exactly in those cases and when the insert succeeds |
| EmployerJobs.AcceptBidCreatesProject | app/dashboard/employer/jobs/page.tsx:119-134 | when every step succeeds on a bid with a unique id, exactly one project is appended: the job, the current employer, the bid's freelancer, the bid's price, `in_progress` |
| EmployerJobs.AcceptClosesGate | app/dashboard/employer/jobs/page.tsx:215-216 | once the job update has gone through, no bid on that job is offered the Accept button and the accepted bid never is again |
| EmployerJobs.EmployerJobsScreen.constructor | app/dashboard/employer/jobs/page.tsx:43-45 | the screen starts with no jobs, no selected job and no bids |
| EmployerJobs.EmployerJobsScreen.FetchJobs | app/dashboard/employer/jobs/page.tsx:52-74 | on success the list becomes `OwnJobs` of the table; on failure it is kept |
| EmployerJobs.EmployerJobsScreen.ViewBids | app/dashboard/employer/jobs/page.tsx:76-101 | "View Bids" selects the job and, on success, lists `BidsForJob` of it |
| EmployerJobs.EmployerJobsScreen.HandleAcceptBid | app/dashboard/employer/jobs/page.tsx:103-151 | the three tables end as `AcceptBid` computes from the old ones and the reported outcome is its `ok`; the lists are re-read only after a reported success |
| EmployerJobs.EmployerJobsScreen.AcceptWrites | app/dashboard/employer/jobs/page.tsx:105-134 | the writes run in order and stop at the first failure, leaving the tables exactly as `AcceptBid` says |
| FreelancerJobs.OpenJobs | app/dashboard/freelancer/jobs/page.tsx:45-57 | the board holds exactly the jobs whose status is `open`, newest first |
| FreelancerJobs.BidReady | app/dashboard/freelancer/jobs/page.tsx:72 | a bid may be submitted exactly when a job is chosen and both the amount and the proposal are non-empty |
| FreelancerJobs.NewBid | app/dashboard/freelancer/jobs/page.tsx:84-90 | the inserted bid carries its id, the chosen job, the current freelancer, the parsed price, the typed proposal and `pending`, so the employer is offered to accept it exactly while the job is open |
| FreelancerJobs.PlacedBidHeadsEmployerList | app/dashboard/freelancer/jobs/page.tsx:84-90 | a bid just placed on an open job heads that job's bid list on the employer's screen (app/dashboard/employer/jobs/page.tsx:76-93) ahead of the earlier bids, and carries the Accept button |
| FreelancerJobs.ClosedJobOffBoard | app/dashboard/freelancer/jobs/page.tsx:45-51 | a job whose status has left `open` does not appear on the board |
| FreelancerJobs.AvailableJobsScreen.constructor | app/dashboard/freelancer/jobs/page.tsx:34-38 | the screen starts with no jobs, an empty bid form and no chosen job |
| FreelancerJobs.AvailableJobsScreen.FetchJobs | app/dashboard/freelancer/jobs/page.tsx:45-67 | on success the list becomes `OpenJobs` of the table; on failure it is kept |
| FreelancerJobs.AvailableJobsScreen.HandleBidSubmit | app/dashboard/freelancer/jobs/page.tsx:69-113 | a bid is inserted exactly when a job is chosen, both fields are filled and the insert succeeds; then the form is cleared, otherwise table and form are unchanged |
| FreelancerJobs.AvailableJobsScreen.SelectJob | app/dashboard/freelancer/jobs/page.tsx:147 | "Place Bid" makes the bid form belong to that job |
| PostJob.NewJob | app/dashboard/employer/post-job/page.tsx:56-64 | the inserted job carries its id, belongs to the current employer, is `open`, and carries the typed title, description and deadline, the listed skills and the parsed budget |
| PostJob.JobReady | app/dashboard/employer/post-job/page.tsx:44 | a job may be posted exactly when title, description, budget and deadline are non-empty and at least one skill is listed |
| PostJob.PostedJobHeadsBoard | app/dashboard/employer/post-job/page.tsx:56-64 | a job just posted heads the freelancers' board (app/dashboard/freelancer/jobs/page.tsx:45-57) ahead of every job already on it |
| PostJob.PostJobForm.constructor | app/dashboard/employer/post-job/page.tsx:34-38 | every field of the form starts empty |
| PostJob.PostJobForm.HandleSubmit | app/dashboard/employer/post-job/page.tsx:41-85 | the page moves to the employer's jobs exactly when every field is filled, a skill is listed and the insert succeeds, and then exactly one open job is appended; otherwise the table is unchanged |
| Projects.VisibleProjects | app/dashboard/projects/page.tsx:53-81 | a freelancer sees exactly the projects they work on, an employer exactly the projects they own, any other role every project; newest first |
| Projects.ProgressStep | app/dashboard/projects/page.tsx:188 | one press asks for ten more percent, never more than 100 and never less than before |
| Projects.PressesReachFull | app/dashboard/projects/page.tsx:186-190 | `n` presses from a progress in range give that progress plus ten per press capped at 100, so ten presses complete a new project and 100 stays 100 |
| Projects.ProjectsPage.constructor | app/dashboard/projects/page.tsx:43-47 | the page starts with no projects, no selected project and no message |
| Projects.ProjectsPage.FetchProjects | app/dashboard/projects/page.tsx:53-91 | on success the list becomes `VisibleProjects` of the table; on failure it is kept |
| Projects.ProjectsPage.HandleUpdateProgress | app/dashboard/projects/page.tsx:135-156 | on success exactly the project with that id gets the new progress and the list is re-read; on failure neither changes |
| Projects.ProjectsPage.PressUpdateProgress | app/dashboard/projects/page.tsx:186-190 | the freelancer's button writes `ProgressStep` of the project's progress through `HandleUpdateProgress` |
| Projects.CanUpdateProgress | app/dashboard/projects/page.tsx:186 | the Update Progress button is shown exactly to a freelancer |
| Projects.ProjectsPage.HandleSendMessage | app/dashboard/projects/page.tsx:93-133 | a message is inserted exactly when a project is chosen, text is written and the insert succeeds; the text is cleared only then |
| Projects.ProjectsPage.SelectProject | app/dashboard/projects/page.tsx:198 | "Send Message" makes the dialog belong to that project |
| Messages.PartyProjects | app/dashboard/messages/page.tsx:75-93 | the project list holds exactly the projects the user employs or works on, newest first |
| Messages.Thread | app/dashboard/messages/page.tsx:108-125 | the thread holds exactly the project's messages, in the order they were sent |
| Messages.NewMessage | app/dashboard/messages/page.tsx:145-149 | a sent message is on the selected project, from the current user, with the typed text and no attachment |
| Messages.RealtimeMatchesRefetch | app/dashboard/messages/page.tsx:47-65 | appending each subscribed insert on the selected project gives the thread a fresh fetch would return, and an insert on another project leaves that thread as it was |
| Messages.MessagesPage.constructor | app/dashboard/messages/page.tsx:35-38 | the page starts with no projects, no selection, no messages and no text |
| Messages.MessagesPage.SelectProject | app/dashboard/messages/page.tsx:47-49 | choosing a project (line 181) selects it and, on success, loads `Thread` of it |
| Messages.MessagesPage.FetchProjects | app/dashboard/messages/page.tsx:75-106 | on success the list becomes `PartyProjects` and, when it is not empty, its newest project is selected with its thread loaded; otherwise selection and thread are kept |
| Messages.MessagesPage.OnRealtimeInsert | app/dashboard/messages/page.tsx:55-57 | an insert on the selected project is added last to the thread |
| Messages.MessagesPage.HandleSendMessage | app/dashboard/messages/page.tsx:135-165 | a message is inserted exactly when a project is selected, text is typed and the insert succeeds; the input is cleared only then, and the thread is left to the subscription |
| Milestones.MilestoneActions | components/milestone-payment.tsx:189-203 | buttons are offered exactly to an employer on a pending milestone (approve, reject) and to a freelancer on an approved one (complete), and they only ever ask for `approved`, `rejected` or `completed` |
| Milestones.CanRequestMilestone | components/milestone-payment.tsx:132 | the Request Milestone dialog is shown exactly to a freelancer |
| Milestones.RunFromPending | components/milestone-payment.tsx:189-203 | any sequence of offered presses on a new milestone has at most two steps, and it ends completed exactly after an employer's approval followed by a freelancer's completion |
| Milestones.MilestonesForProject | components/milestone-payment.tsx:44-55 | the list holds exactly the project's milestones, oldest first |
| Milestones.NewMilestone | components/milestone-payment.tsx:79-84 | a requested milestone is on this project and `pending`, so only the employer is offered buttons for it |
| Milestones.NewMilestoneListedLast | components/milestone-payment.tsx:79-95 | a requested milestone appears last in the re-read list, after every earlier milestone of the project |
| Milestones.MilestonePanel.constructor | components/milestone-payment.tsx:38-41 | the panel starts with no milestones and an empty form |
| Milestones.MilestonePanel.FetchMilestones | components/milestone-payment.tsx:44-65 | on success the list becomes `MilestonesForProject`; on failure it is kept |
| Milestones.MilestonePanel.CreateMilestone | components/milestone-payment.tsx:67-105 | called from the freelancer-only dialog (line 132), a pending milestone is inserted exactly when both fields are filled and the insert succeeds; then the form is cleared and the list re-read, otherwise nothing changes |
| Milestones.MilestonePanel.UpdateMilestoneStatus | components/milestone-payment.tsx:107-126 | on success exactly the milestone with that id gets the status and the list is re-read; on failure neither changes |
| Reviews.ReviewsOf | components/rating-review.tsx:53-56 | the re-read holds exactly the reviews of the project, each once and in table order: a subsequence of the table as long as the number of the project's reviews, so the two-review test counts distinct rows |
| Reviews.OneSidedPairCompletesAsWritten | components/rating-review.tsx:60 | two reviews both written by the freelancer pass the test as written although the employer has not reviewed |
| Reviews.BothPartiesImpliesTwo | components/rating-review.tsx:52-60 | every review list in which both parties have reviewed passes the written two-review test, so the intended test is the stricter one |
| Reviews.NewReviewCompletes | components/rating-review.tsx:36-67 | a review of another project never changes whether this one is complete; a review of this project completes it exactly when the other party had already reviewed it |
| Reviews.HasReviewByAppend | components/rating-review.tsx:36-43 | an appended review adds its own reviewer role to the roles that have reviewed, and no other |
| Reviews.SubmitReview | components/rating-review.tsx:36-67 | the submission on the tables as values: the review is appended exactly when its insert succeeds, the projects keep their length, and success is reported only when the insert and the re-read succeeded |
| Reviews.SubmitReviewWrites | components/rating-review.tsx:24-80 | a submission appends at most the one review and changes at most the reviewed project's status, only to `completed`; a failed insert writes nothing |
| Reviews.SubmitReviewCompletion | components/rating-review.tsx:36-67 | when every call succeeds the submission reports success and the reviewed project ends completed exactly when it now has at least two reviews, that is, when it already had one, by whomever; every both-parties completion is among them |
| Reviews.RatingReview.constructor | components/rating-review.tsx:19-21 | the form starts with no star chosen and no text |
| Reviews.RatingReview.ClickStar | components/rating-review.tsx:86-90 | a click on star 1 to 5 sets the rating to that star |
| Reviews.RatingReview.Row | components/rating-review.tsx:36-43 | the submitted row is on this project, from the current user to the recipient, with the chosen rating, text and reviewer role |
| Reviews.RatingReview.HandleSubmit | components/rating-review.tsx:24-80 | with no star chosen nothing is written; otherwise the tables end as `SubmitReview` computes, completing the project on the two-review test, and the form is reset only when every step succeeded |
| Notifications.Latest | components/notification-bell.tsx:62-77 | the bell lists the user's own notifications, the latest-created first, position by position: the i-th listed is the i-th from the end of the user's rows, and there are ten of them or all of them when fewer |
| Notifications.AllRead | components/notification-bell.tsx:115 | marking all read keeps every item and its position and sets only its read flag |
| Notifications.NothingUnreadAfterAllRead | components/notification-bell.tsx:115-116 | after marking all read no item is unread, so the counter's 0 matches the list |
| Notifications.UnreadAfterMark | components/notification-bell.tsx:96 | marking an id read lowers the number of unread items by exactly the number of unread items with that id |
| Notifications.UnreadAfterMarkPointwise | components/notification-bell.tsx:96 | a list whose read flags are the old ones with that id's set has as many unread items as the old list minus that id's unread ones |
| Notifications.MarkAsReadCountAsWritten | components/notification-bell.tsx:97 | the counter as written goes down by one whenever it is positive, whatever the clicked item's state, and is clamped to 0 when it is zero |
| Notifications.MarkAsReadAsWrittenDrifts | components/notification-bell.tsx:96-97 | clicking an already-read item with one other item unread leaves one unread item yet the written counter at 0 |
| Notifications.MarkAsReadCount | components/notification-bell.tsx:96-97 | the corrected counter goes down by the unread items the click marked, so a counter that matched the list still matches it |
| Notifications.NotificationBell.constructor | components/notification-bell.tsx:24-25 | the bell starts with no items and a zero counter, which match |
| Notifications.NotificationBell.Fetch | components/notification-bell.tsx:62-83 | on success the list becomes `Latest` and the counter its unread count; a failure changes nothing |
| Notifications.NotificationBell.OnInsert | components/notification-bell.tsx:43-46 | a new notification goes first and the counter up by one, which keeps the badge right for a notification that arrives unread |
| Notifications.NotificationBell.MarkAsRead | components/notification-bell.tsx:85-101 | on success the row and the local item with that id are marked read and the counter goes one down, never below zero, whatever the clicked item's state; the counter keeps matching the list when the click marked exactly one unread item |
| Notifications.NotificationBell.MarkAllAsRead | components/notification-bell.tsx:103-120 | on success the user's rows are marked read, every local item is read and the counter is 0; a failure changes nothing |
| FileUpload.Extension | components/file-upload.tsx:28 | the extension is the suffix of the name after its last dot and holds no dot; a name without a dot is its own extension |
| FileUpload.ExtensionAfterDot | components/file-upload.tsx:28-29 | whatever precedes the last dot, the extension of `<prefix>.<ext>` is `ext` |
| FileUpload.StoragePathShape | components/file-upload.tsx:28-29 | the stored path lies in the project's folder and has the chosen file's extension |
| FileUpload.FileUploader.constructor | components/file-upload.tsx:20 | the uploader starts with no uploaded files |
| FileUpload.FileUploader.HandleFileChange | components/file-upload.tsx:22-65 | with a file chosen and a successful upload, exactly one object is stored at `<project>/<token>.<ext>` and the file is listed last with its public link and handed on; otherwise nothing changes |
| FileUpload.FileUploader.RemoveFile | components/file-upload.tsx:67-71 | removing drops exactly the entry at that position and keeps the others in order |
| Disputes.NewDispute | components/dispute-form.tsx:42-49 | a raised dispute carries its id, is on this project, initiated by the current user, carries the typed reason and evidence and the collected evidence links, is `pending` and has no resolution |
| Disputes.VisibleDisputes | app/dashboard/disputes/page.tsx:53-82 | an admin is shown every dispute; anyone else exactly the disputes they initiated or whose project they employ or work on; newest first |
| Disputes.AdminSeesAll | app/dashboard/disputes/page.tsx:68-74 | an admin's list is the whole table in reverse creation order |
| Disputes.ResolveClosesGate | app/dashboard/disputes/page.tsx:109-115 | a resolved dispute carries the admin's text and is never offered "Resolve Dispute" again (line 170) |
| Disputes.ResolveKeepsVisibility | app/dashboard/disputes/page.tsx:70-74 | resolving changes no one's count of disputes that concern them |
| Disputes.DisputeForm.constructor | components/dispute-form.tsx:25-27 | the dialog starts with no reason, no evidence and no files |
| Disputes.DisputeForm.HandleFileUpload | components/dispute-form.tsx:72-74 | an uploaded file's link is added last to the evidence files |
| Disputes.DisputeForm.HandleSubmit | components/dispute-form.tsx:30-70 | a dispute is inserted exactly when reason and evidence are filled and the insert succeeds; then the form is cleared, otherwise table and form are unchanged |
| Disputes.DisputesPage.constructor | app/dashboard/disputes/page.tsx:43-46 | the page starts with no disputes, no selection and no resolution text |
| Disputes.DisputesPage.FetchDisputes | app/dashboard/disputes/page.tsx:53-92 | on success the list becomes `VisibleDisputes`; on failure it is kept |
| Disputes.DisputesPage.SelectDispute | app/dashboard/disputes/page.tsx:170-173 | the button, offered to an admin on a pending dispute, makes the dialog belong to that dispute |
| Disputes.CanResolve | app/dashboard/disputes/page.tsx:170 | the Resolve button is shown exactly to an admin on a `pending` dispute |
| Disputes.DisputesPage.HandleResolveDispute | app/dashboard/disputes/page.tsx:94-138 | the dispute is resolved exactly when one is selected, text is written and the update succeeds; then the dialog is cleared and the list re-read, otherwise nothing changes |
| Disputes.DisputesPage.ResolveWrite | app/dashboard/disputes/page.tsx:97-127 | the guard and the update: exactly the selected dispute gets status `resolved` and the text, and the dialog is cleared, only when both are present and the update succeeds |
| Talent.Freelancers | app/dashboard/employer/talent/page.tsx:21-27 | the list holds exactly the profiles whose role is `freelancer`, in table order |
| Talent.SearchTalent | app/dashboard/employer/talent/page.tsx:37-41 | the search test fails on a list exactly when some profile has no name, or a non-matching name and no skills; otherwise it keeps exactly the profiles whose lower-cased name or one of whose lower-cased skills contains the lower-cased term, in fetched order and each once (an order-preserving subsequence as long as the number of matching profiles) |
| Talent.TalentPage | app/dashboard/employer/talent/page.tsx:37-62 | the page throws exactly when some profile has no name or no skills (the search test or the card's `skills.join` reads them), whatever the term; otherwise it shows the filtered list, every card with its skills |
| Talent.EmptySearchShowsAll | app/dashboard/employer/talent/page.tsx:37-41 | with an empty search, every freelancer that has a name is listed, whatever their skills |
| Talent.FindTalent.constructor | app/dashboard/employer/talent/page.tsx:14-15 | the page starts with no freelancers and an empty search |
| Talent.FindTalent.FetchFreelancers | app/dashboard/employer/talent/page.tsx:21-35 | on success the list becomes `Freelancers` of the profiles; on failure it is kept |
| Tiles.ActiveCount | app/dashboard/freelancer/page.tsx:29-34 | the active-projects tile counts the user's in-progress projects on their side (app/dashboard/employer/page.tsx:30-35 for the employer), never more than there are projects |
| Tiles.Money | app/dashboard/freelancer/page.tsx:43-50 | the earnings (or, at app/dashboard/employer/page.tsx:44-51, spending) total is the sum over all projects of each amount where the project is the user's and completed, and 0 elsewhere |
| Tiles.MoneyNonNegative | app/dashboard/freelancer/page.tsx:43-50 | with no negative amounts, the money tile is never negative |
| Tiles.CompletionMovesAmount | app/dashboard/freelancer/page.tsx:29-50 | completing one of the user's in-progress projects adds exactly its amount to the money tile and takes exactly one off the active-projects tile |
| Tiles.CompletionChangesOneRow | app/dashboard/freelancer/page.tsx:29-50 | completing a project whose id names one row changes that row's status only |
| Tiles.CompletionMovesMoney | app/dashboard/freelancer/page.tsx:43-50 | a row that turns from in progress to completed on the user's side adds exactly its amount to the money total |
| Tiles.CompletionEndsActive | app/dashboard/freelancer/page.tsx:29-34 | a row that turns from in progress to completed on the user's side takes exactly one off the active count |
| Tiles.FreelancerTiles | app/dashboard/freelancer/page.tsx:19-61 | nothing is fetched without a user; the tiles are the number of open jobs on the board, `ActiveCount`, the unread answer and `Money`, each 0 when its query failed |
| Tiles.EmployerTiles | app/dashboard/employer/page.tsx:19-62 | nothing is fetched without a user; the tiles are the number of the employer's open jobs, `ActiveCount`, the unread answer and `Money` on the employer's side, each 0 when its query failed |
| Tiles.AcceptLowersActiveJobs | app/dashboard/employer/page.tsx:23-28 | accepting a bid on one of the employer's open jobs takes exactly one off the employer's active-jobs tile |
| Tiles.FeesAreTenth | app/dashboard/admin/page.tsx:33-36 | the per-project 10% fee total is a tenth of the completed amounts' total |
| Tiles.Fees | app/dashboard/admin/page.tsx:33-36 | the left fold of `amount * 0.1` over the completed projects, non-negative when every amount is |
| Tiles.AdminTiles | app/dashboard/admin/page.tsx:19-47 | the admin tiles are the number of profiles, the number of jobs, the number of `pending` disputes and a tenth of the completed projects' amounts, each 0 when its query failed |
| Tiles.ResolveLowersActiveDisputes | app/dashboard/admin/page.tsx:27-31 | resolving a pending dispute takes exactly one off the admin's active-disputes tile |
| Analytics.KeyOf | components/analytics/analytics-dashboard.tsx:76-77 | a project's bucket is its creation month counted from 1 and its creation year |
| Analytics.Months | components/analytics/analytics-dashboard.tsx:75-93 | there are never more buckets than projects |
| Analytics.MonthsDistinct | components/analytics/analytics-dashboard.tsx:79-85 | no month gets two buckets |
| Analytics.MonthsCover | components/analytics/analytics-dashboard.tsx:75-91 | every project's month has a bucket |
| Analytics.MonthsStartWithFirst | components/analytics/analytics-dashboard.tsx:68-71 | with projects read in creation order, the first bar is the month of the earliest project |
| Analytics.TotalAmountIsSum | components/analytics/analytics-dashboard.tsx:46 | the revenue total is the same sum of amounts the party dashboards use |
| Analytics.BucketsOf | components/analytics/analytics-dashboard.tsx:93 | one bucket per listed month, in the listed order, each holding that month's revenue and project count |
| Analytics.BucketsNonEmpty | components/analytics/analytics-dashboard.tsx:79-88 | every bar of the chart holds at least one project |
| Analytics.MonthsOccur | components/analytics/analytics-dashboard.tsx:79-88 | a month has a bucket only if some project was created in it |
| Analytics.MonthStep | components/analytics/analytics-dashboard.tsx:87-88 | one project more adds its amount and 1 to its own month and nothing to any other |
| Analytics.MonthAbsent | components/analytics/analytics-dashboard.tsx:79-88 | a month without a bucket has no revenue and no projects |
| Analytics.MonthsSnoc | components/analytics/analytics-dashboard.tsx:79-85 | one project more opens its month's bucket at the end exactly when that month had none |
| Analytics.BucketsSnoc | components/analytics/analytics-dashboard.tsx:87-88 | over months without repeats, one project more adds 1 and its amount to the bucket totals exactly when its month is listed |
| Analytics.LastBucket | components/analytics/analytics-dashboard.tsx:93 | the bucket totals of a list of months are those of all but the last month plus the last month's |
| Analytics.BucketsTotal | components/analytics/analytics-dashboard.tsx:75-93 | buckets of months without repeats that cover every project's month add up to the number of projects and to the total amount |
| Analytics.NoProjects | components/analytics/analytics-dashboard.tsx:75 | with no projects every bucket is empty |
| Analytics.BucketTotals | components/analytics/analytics-dashboard.tsx:46-93 | the chart's project counts add up to the number of projects and its revenues to the revenue total, so the chart and the totals agree |
| Analytics.ComputeStats | components/analytics/analytics-dashboard.tsx:46-55 | the totals are the numbers of profiles, jobs and projects and the summed amounts, and the project and revenue totals equal the chart's sums |
| Analytics.TalliedStep | components/analytics/analytics-dashboard.tsx:75-91 | one step of the reduce keeps the accumulator exact: a bucket is opened at the end for a new month and the project's month gets its amount and 1 |
| Analytics.Readout | components/analytics/analytics-dashboard.tsx:93 | reading the exact accumulator out in insertion order gives the chart |
| Analytics.MonthlyBuckets | components/analytics/analytics-dashboard.tsx:75-93 | the reduce followed by `Object.values` yields exactly `MonthlyData`: one bar per month in order of first appearance, with that month's revenue and project count |
| Analytics.MonthlyData | components/analytics/analytics-dashboard.tsx:75-93 | the chart as it should come out: one bucket per listed month, no more buckets than projects, the i-th bucket holding the i-th month's projects |
| Analytics.AnalyticsDashboard.constructor | components/analytics/analytics-dashboard.tsx:15-21 | the dashboard starts with zero totals and an empty chart |
| Analytics.AnalyticsDashboard.FetchStats | components/analytics/analytics-dashboard.tsx:28-64 | an error from any of the three queries leaves the totals as they were; otherwise they become `ComputeStats` of the tables |
| Analytics.AnalyticsDashboard.FetchMonthlyData | components/analytics/analytics-dashboard.tsx:66-101 | on success the chart becomes `MonthlyData` of the projects in creation order; on failure it is kept |
| Backend.SetBidStatus | app/dashboard/employer/jobs/page.tsx:106 | the update keeps every row and its position, sets the status of the rows with that id and leaves every other row as it was |
| Backend.SetJobStatus | app/dashboard/employer/jobs/page.tsx:113 | the update keeps every row and its position, sets the status of the rows with that id and leaves every other row as it was |
| Backend.SetProjectStatus | components/rating-review.tsx:61-64 | the update keeps every row and its position, sets the status of the rows with that id and leaves every other row as it was |
| Backend.SetProjectProgress | app/dashboard/projects/page.tsx:137 | the update keeps every row and its position, sets the progress of the rows with that id and leaves every other row as it was |
| Backend.SetMilestoneStatus | components/milestone-payment.tsx:109 | the update keeps every row and its position, sets the status of the rows with that id and leaves every other row as it was |
| Backend.ResolveDisputeRows | app/dashboard/disputes/page.tsx:109-115 | the rows with that id become `resolved` with the resolution text; every other row is untouched |
| Backend.MarkNotificationRows | components/notification-bell.tsx:89-92 | the rows with that id become read; every other row is untouched |
| Backend.MarkUserNotificationRows | components/notification-bell.tsx:107-111 | the user's unread rows become read; every other row is untouched |
| Backend.SetAccountStatus | app/dashboard/admin/users/page.tsx:65-67 | the account with that id gets the status; every other account is untouched |
| Backend.SetBidStatusKeepsIds | app/dashboard/employer/jobs/page.tsx:106-120 | a status write keeps the number of bids carrying any given id, so the re-read after it finds the same rows |
| Backend.SingleBid | app/dashboard/employer/jobs/page.tsx:120 | `.single()` yields a row exactly when one bid has that id, and then it is that bid |
| Backend.Store.constructor | types/supabase.ts:1-237 | a new backend has every table empty |
| Backend.Store.InsertProfile | app/register/page.tsx:82-97 | a successful insert appends the row to the profiles table; a failed one changes nothing |
| Backend.Store.InsertJob | app/dashboard/employer/post-job/page.tsx:56-64 | a successful insert appends the row to the jobs table; a failed one changes nothing |
| Backend.Store.InsertBid | app/dashboard/freelancer/jobs/page.tsx:84-90 | a successful insert appends the row to the bids table; a failed one changes nothing |
| Backend.Store.InsertProject | app/dashboard/employer/jobs/page.tsx:123-129 | a successful insert appends the row to the projects table; a failed one changes nothing |
| Backend.Store.InsertMessage | app/dashboard/messages/page.tsx:145-149 | a successful insert appends the row to the messages table; a failed one changes nothing |
| Backend.Store.InsertMilestone | components/milestone-payment.tsx:79-84 | a successful insert appends the row to the milestones table; a failed one changes nothing |
| Backend.Store.InsertDispute | components/dispute-form.tsx:42-49 | a successful insert appends the row to the disputes table; a failed one changes nothing |
| Backend.Store.InsertReview | components/rating-review.tsx:36-43 | a successful insert appends the row to the reviews table; a failed one changes nothing |
| Backend.Store.UpdateBidStatus | app/dashboard/employer/jobs/page.tsx:106 | a successful write applies `SetBidStatus`; a failed one changes nothing |
| Backend.Store.UpdateJobStatus | app/dashboard/employer/jobs/page.tsx:113 | a successful write applies `SetJobStatus`; a failed one changes nothing |
| Backend.Store.UpdateProjectStatus | components/rating-review.tsx:61-64 | a successful write applies `SetProjectStatus`; a failed one changes nothing |
| Backend.Store.UpdateProjectProgress | app/dashboard/projects/page.tsx:137 | a successful write applies `SetProjectProgress`; a failed one changes nothing |
| Backend.Store.UpdateMilestoneStatus | components/milestone-payment.tsx:109 | a successful write applies `SetMilestoneStatus`; a failed one changes nothing |
| Backend.Store.ResolveDispute | app/dashboard/disputes/page.tsx:109-115 | a successful write applies `ResolveDisputeRows`; a failed one changes nothing |
| Backend.Store.MarkNotificationRead | components/notification-bell.tsx:89-92 | a successful write applies `MarkNotificationRows`; a failed one changes nothing |
| Backend.Store.MarkUserNotificationsRead | components/notification-bell.tsx:107-111 | a successful write applies `MarkUserNotificationRows`; a failed one changes nothing |
| Backend.Store.UpdateAccountStatus | app/dashboard/admin/users/page.tsx:65-67 | a successful write applies `SetAccountStatus`; a failed one changes nothing |
| Backend.Store.Upload | components/file-upload.tsx:34 | a successful upload adds the path to the stored files; a failed one changes nothing |
| Common.Filter | app/dashboard/admin/users/page.tsx:86-91 | a filter keeps only elements that pass the test, every passing element is kept, and the result is a subsequence of the input: same order, never more copies than there were |
| Common.FilterMultiplicity | app/dashboard/admin/users/page.tsx:86-91 | a filter holds each passing element exactly as many times as the input does, and no other element |
| Common.NewestFirst | app/dashboard/employer/jobs/page.tsx:57-58 | a query with an equality filter ordered by `created_at` descending returns only matching rows and every matching row, in creation order reversed |
| Common.NewestFirstMultiplicity | app/dashboard/employer/jobs/page.tsx:57-58 | that listing holds each matching row exactly as many times as the table does, and no other row |
| Common.NewestFirstAppend | app/dashboard/freelancer/jobs/page.tsx:50-51 | a row created last heads a newest-first listing when it matches the filter and leaves the listing unchanged otherwise |
| Common.Take | components/notification-bell.tsx:72 | `.limit(n)` keeps the first `n` rows, or all of them when there are fewer |
| Common.Lower | app/dashboard/admin/users/page.tsx:88 | lower-casing keeps the length, maps each character, and leaves no upper-case ASCII letter |
| Common.IncludesIffOccurs | app/dashboard/admin/users/page.tsx:88-90 | `includes` holds exactly when the term occurs at some position of the text |
| Common.MatchesEmptyTerm | app/dashboard/employer/talent/page.tsx:39 | an empty search term matches every text |

## Left out

- Rendering, toasts, loading and submitting flags, the star hover effect, scrolling the thread, and the Refresh, Sign out, Settings and Return to Home buttons. None of these changes a table or a listed state.
- The authentication service. Sign-up is a `SignUpOutcome` input; the current user, role, loading flag and configuration error are inputs. components/providers/supabase-provider.tsx is not part of this model.
- The backend's query language. Tables are sequences in creation order, and "ordered by `created_at` descending" is that order reversed. Joined columns that are only displayed (`profiles.full_name`, `jobs.title`) are not modelled. The user-management page's joined e-mail and status are discussed below and under Findings. Server-generated ids and timestamps are parameters.
- Realtime channels. Each subscription callback is a method the caller invokes with a row the channel's filter admits. Subscribing and unsubscribing are not modelled.
- Asynchronous interleaving. Each handler is one sequential run, and no two handlers overlap.
- Re-reads after a successful write are modelled as succeeding. The source reports their failure only through a toast.
- `Number.parseFloat` is the parameter `parse: string -> int`, and amounts, budgets, rates and prices are integers. The admin's 10% fee is computed in exact reals. IEEE floating point and `toFixed` are not modelled.
- `toLowerCase` and `includes` are modelled for ASCII letters only; other characters are compared unchanged.
- `Date` parsing is not modelled. Each project carries its creation year and 0-based month (`Schema.Stamp`).
- `Analytics.KeyOf`: the bucket label is the pair (month, year) rather than the text `month/year`. Two labels in decimal notation are equal exactly when the pairs are.
- `Analytics.ComputeStats`: does not model a project whose amount is null (`project.amount || 0`). Amounts in the model are always numbers.
- `Math.random().toString(36)` and `getPublicUrl` are the parameters `token` and `publicUrl`.
- The "unread messages" tiles query columns that the messages table does not have. Their answer is the opaque input `unread`, shown as 0 when absent.
- The user-management page as written fetches profiles with the account's e-mail and status nested under `auth_users`, reads them at the top level, and writes the status into the authentication service's user metadata. `FetchedRow`, `FilterUsersAsWritten`, `BadgeAsWritten` and their lemmas model that. The page as intended is modelled on one `accounts` table of rows with a top-level e-mail, a name and the status the buttons write; the members below are about that intended page.
- `AdminUsers.FilterUsers`: models the intended search, over rows with an e-mail and a name. As written, the search throws on any fetched row (`FetchedListThrows`).
- `AdminUsers.EmptySearchShowsAll`: holds of the intended rows only. As written, an empty search over any fetched row throws.
- `AdminUsers.ButtonSetsBadge`: holds only because the written status and the listed row are the same `accounts` row. As written, the badge never reflects a press (`BadgeNeverShowsPress`).
- `AdminUsers.ManageUsers.Shown`: the intended rows on screen. As written, no row renders once a user is fetched.
- `AdminUsers.ManageUsers.FetchUsers`, `AdminUsers.ManageUsers.UpdateUserStatus` and `AdminUsers.ManageUsers.PressStatusButton` act on the intended `accounts` table.
- `EmployerJobs.NewProject`: the project insert sets no progress, so the new project's progress is taken as 0, the column's default.
- The role gates (accept, resolve, update progress, request milestone, milestone buttons) exist only in the interface; the backend accepts these writes from anyone. They are modelled as predicates, as preconditions of the `Select…`/`Press…` methods and `CreateMilestone`, and as lemmas about when each gate closes.
- `FileUpload.FileUploader.RemoveFile`: requires an index inside the list, because its only caller passes the index of a rendered entry. `splice` with an index outside the list is not modelled: an index past the end leaves the list unchanged, while a negative one counts from the end.
- `Messages.MessagesPage.OnRealtimeInsert`: requires a message of the selected project, which is what the channel's filter delivers.
- The payments, settings, skills and admin analytics pages, the payment and e-mail services, and the static pages are not part of this model.

## Findings

| source | as written | input that shows it | evidently intended | confidence | as-written member | corrected member |
|---|---|---|---|---|---|---|
| components/notification-bell.tsx:97 | marking an item read lowers the unread counter by one whenever it is positive, even if the clicked item was already read | one unread item `a` and one read item `b`, counter 1; clicking `b` leaves `a` unread but the badge at 0 | lower the counter only by the unread items the click marked, so the badge keeps matching the list | high, not executed | Notifications.MarkAsReadAsWrittenDrifts | Notifications.MarkAsReadCount |
| components/rating-review.tsx:60 | the project is marked completed once it has at least two reviews, whoever wrote them | two reviews of the project, both by the freelancer (the form submitted twice), and none by the employer | complete the project once both the employer and the freelancer have reviewed it, as the comment at line 52 says | medium, not executed | Reviews.OneSidedPairCompletesAsWritten | Reviews.NewReviewCompletes |
| app/dashboard/admin/users/page.tsx:88 | the search test reads `user.email`, but the query at line 45 returns the e-mail only nested under `auth_users`, so `toLowerCase` throws on the first row (and on a null `full_name` at line 89) | one profile `{id: "u1", full_name: "Ann", role: "freelancer"}` and an empty search | read the joined account's e-mail, so every user matching the term is listed | medium, not executed; if the backend rejects the embedded select instead, the list stays empty | AdminUsers.FetchedListThrows | AdminUsers.EmptySearchShowsAll |
| app/dashboard/admin/users/page.tsx:137 | the badge reads a top-level `user.status` that the query never returns, and Activate / Suspend write `user_metadata.status` (line 66), which is never read back | any profile, after pressing Suspend: its badge is still the neutral one | show the status the buttons write, so a press changes the user's badge | medium, not executed | AdminUsers.BadgeNeverShowsPress | AdminUsers.ButtonSetsBadge |

The model's `NotificationBell.MarkAsRead` keeps the counter as written; it keeps the
counter equal to the number of unread items only when the click marked exactly one
unread item. `Notifications.MarkAsReadCount` is the corrected rule and keeps that
invariant for every click. The model's `RatingReview.HandleSubmit` (through
`SubmitReview`) keeps the written two-review test; `Reviews.NewReviewCompletes` states
the intended both-parties rule, and `Reviews.BothPartiesImpliesTwo` shows that the
written test never misses a completion the intended one would make. The user-management
page as written is modelled by `AdminUsers.FilterUsersAsWritten` and `AdminUsers.BadgeAsWritten`.
`AdminUsers.ManageUsers` models the page as intended, on one `accounts` table.
