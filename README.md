# Gig-work prototype UI: a verified model of its components

This project models the stateful core of a mobile gig-work prototype written
as React components. The prototype has workers who look for short jobs and
employers who post them. Each component becomes one Dafny module:

- **Notification centre.** Mark one notification or all of them as read, the unread badge, the tab filter and the empty state.
- **Auth modal.** Login and signup validation, the user each one builds, and the order of the effects it has (the `onLogin` call, the toast, closing the modal).
- **Filter modals.** The full filter and the simple filter: checkbox lists, sliders, reset and apply, the "selected" preview and the "active filters" block.
- **Distance-based filter.** The geolocation request and its error messages, the fallback to a default location, the distance slider and its presets, the distance text, the estimated job count, the travel times, and which buttons are enabled.
- **Map view.** The location request with its error alert and fallback, marker and list selection, the `selectJob` hook and the navigation alert.
- **Review system and role-based review system.** The write form (stars, sliders, comment), the received and given tabs, the category tables of each role, the card labels and the helpful toggle.
- **Chat.** Sending a message: whitespace trimming, appending and clearing the input. Also the simulated reply and the date separators ("오늘", "어제", "M월 D일").
- **My-activity screen.** Status badges, the buttons a job card offers, the optional lines of a card, and handing a job to the check-in modal.
- **Check-in modal.** The loading, success and close-timer sequence.

Shared modules hold the generic pieces:

| module | what it holds |
|---|---|
| `Seqs` | filter, map, remove-all |
| `Text` | decimal digits and their round trip, substring search |
| `Calendar` | Gregorian days, the previous day and the next day |
| `Slider` | slider tracks |
| `Stars` | the five-star row |
| `Checklist` | the checkbox list update every filter uses |
| `Geolocation` | the W3C geolocation error codes and the default coordinates |
| `Wrappers` | Option and Result |

Two conventions carry through the whole model:

- A component whose state changes step by step is a `class` whose methods update that state.
- Pure helpers (formatters, status tables, filters) are functions, with lemmas about them.

Distances are counted in half kilometres (`h`, so a distance is `h / 2` km). The filter modal's rating slider is counted in half points. This keeps every slider value an integer.

## Model

| member | source | states |
|---|---|---|
| NotificationCenter.MarkedAsRead | components/improved-notification-center.tsx:88-90 | the notification with the id becomes read, every other field and every other notification is unchanged, and the length is kept |
| NotificationCenter.MarkedAllAsRead | components/improved-notification-center.tsx:92-94 | every notification is read and nothing else changes |
| NotificationCenter.UnreadCount | components/improved-notification-center.tsx:96 | the count is at most the list length, and it is 0 exactly when every notification is read |
| NotificationCenter.Filtered | components/improved-notification-center.tsx:98-102 | the shown list is a subsequence of the notifications. It holds only notifications the tab admits, includes every one it admits, and is exactly as long as the number of notifications the tab admits |
| NotificationCenter.MarkAsReadUnreadCount | components/improved-notification-center.tsx:88-96 | marking one id read lowers the unread count by the number of unread notifications with that id, and never raises it |
| NotificationCenter.UnreadIsCount | components/improved-notification-center.tsx:88-96 | the same count identity, for any predicate that picks the unread notifications with the id |
| NotificationCenter.MarkAllAsReadIdempotent | components/improved-notification-center.tsx:92-94 | marking all read twice is the same as marking them read once |
| NotificationCenter.MarkAsReadIdempotent | components/improved-notification-center.tsx:88-90 | marking the same id read twice is the same as marking it read once |
| NotificationCenter.AllTabShowsEverything | components/improved-notification-center.tsx:98-102 | the "all" tab shows the whole list, in order |
| NotificationCenter.UnreadTabMatchesBadge | components/improved-notification-center.tsx:96-102 | the "unread" tab lists exactly as many notifications as the badge counts |
| NotificationCenter.BadgeIffSomeUnread | components/improved-notification-center.tsx:111-117 | the unread badge is drawn exactly when some notification is unread |
| NotificationCenter.EmptyStateIffNothingShown | components/improved-notification-center.tsx:166-171 | the empty state appears exactly when the tab admits no notification |
| NotificationCenter.NoBadgeAfterMarkAll | components/improved-notification-center.tsx:92-117 | after marking all read no badge is drawn |
| NotificationCenter.Center.constructor | components/improved-notification-center.tsx:27-69 | the centre starts on the "all" tab with the given list |
| NotificationCenter.Center.MarkAsRead | components/improved-notification-center.tsx:88-90 | the list becomes the marked list, the tab is kept, and the unread count does not grow |
| NotificationCenter.Center.MarkAllAsRead | components/improved-notification-center.tsx:92-94 | the list becomes the all-read list, the unread count is 0 and the badge disappears |
| NotificationCenter.Center.SelectTab | components/improved-notification-center.tsx:121-135 | only the active tab changes |
| AuthModal.Login | components/improved-auth-modal.tsx:31-47 | login fails, with the missing-credentials error, exactly when the email or the password is empty. Otherwise the user has id "1", the email entered, is verified, and has the name entered, or "김민준" when the name is empty |
| AuthModal.Signup | components/improved-auth-modal.tsx:57-91 | signup fails on the first broken rule: missing fields, then mismatched passwords, then terms not agreed. It succeeds exactly when none is broken, with an unverified user carrying the name and email entered |
| AuthModal.HandleLogin | components/improved-auth-modal.tsx:31-55 | on success exactly three effects: `onLogin` with the user, the "로그인 성공" toast, then one `onClose`. On failure only a destructive error toast, and neither callback |
| AuthModal.HandleSignup | components/improved-auth-modal.tsx:57-99 | on success exactly three effects: `onLogin` with the new user, the "회원가입 성공" toast, then one `onClose`. On failure only the error toast for the rule that broke |
| AuthModal.LoginIgnoresSignupFields | components/improved-auth-modal.tsx:31-47 | phone, confirmation and terms do not affect login |
| AuthModal.SignupFormCanLogIn | components/improved-auth-modal.tsx:31-91 | a form that signs up can also log in, as the same user but verified |
| AuthModal.EmptyFormRejected | components/improved-auth-modal.tsx:22-39 | the initial empty form is rejected by both login and signup |
| Checklist.Toggled | components/enhanced-filter-modal.tsx:53-59 | checking appends the value at the end. Unchecking removes every copy of it and keeps the other values in order |
| Checklist.ToggledShowsNewState | components/enhanced-filter-modal.tsx:53-59 | after the change the box shows the new checked state |
| Checklist.ToggledLeavesOtherBoxes | components/enhanced-filter-modal.tsx:53-59 | no other box changes |
| Checklist.CheckTwiceThenUncheck | components/enhanced-filter-modal.tsx:53-59 | checking twice stores the value twice, and one uncheck removes both copies |
| Checklist.UncheckUndoesCheck | components/enhanced-filter-modal.tsx:53-59 | unchecking a freshly checked value restores the list |
| EnhancedFilterModal.InitialIsQuiet | components/enhanced-filter-modal.tsx:21-32 | the initial filters sit on their slider tracks and show no preview. The distance slider has 20 positions and the pay slider 91 |
| EnhancedFilterModal.PreviewIgnoresOtherFields | components/enhanced-filter-modal.tsx:305 | the preview depends only on categories, time slots and work days |
| EnhancedFilterModal.CheckingShowsPreview | components/enhanced-filter-modal.tsx:53-75 | checking any category, time slot or work day shows the preview |
| EnhancedFilterModal.Modal.constructor | components/enhanced-filter-modal.tsx:21-32 | the modal starts with the initial filters |
| EnhancedFilterModal.Modal.HandleCategoryChange | components/enhanced-filter-modal.tsx:53-59 | only the category list changes, by the checklist update |
| EnhancedFilterModal.Modal.HandleTimeSlotChange | components/enhanced-filter-modal.tsx:61-67 | only the time-slot list changes, by the checklist update |
| EnhancedFilterModal.Modal.HandleWorkDayChange | components/enhanced-filter-modal.tsx:69-75 | only the work-day list changes, by the checklist update |
| EnhancedFilterModal.Modal.HandleDurationChange | components/enhanced-filter-modal.tsx:77-83 | only the duration list changes, by the checklist update |
| EnhancedFilterModal.Modal.SetLocation | components/enhanced-filter-modal.tsx:145 | only the location changes |
| EnhancedFilterModal.Modal.SetDistance | components/enhanced-filter-modal.tsx:160-165 | only the distance changes, and it stays on its track |
| EnhancedFilterModal.Modal.SetPayRange | components/enhanced-filter-modal.tsx:244-249 | only the pay range changes, and it stays on its track |
| EnhancedFilterModal.Modal.SetFlags | components/enhanced-filter-modal.tsx:285-295 | only the urgent and verified flags change |
| EnhancedFilterModal.Modal.HandleReset | components/enhanced-filter-modal.tsx:85-98 | the filters return to the initial ones, which show no preview |
| EnhancedFilterModal.Modal.HandleApply | components/enhanced-filter-modal.tsx:100-103 | the current filters are handed to the parent unchanged and the modal closes |
| FilterModal.InitialIsQuiet | components/filter-modal.tsx:18-26 | the initial filters sit on their tracks and show no active-filters block. The sliders have 20, 39 and 9 positions |
| FilterModal.ActiveFiltersIgnoreSliders | components/filter-modal.tsx:207 | the block ignores the sliders, and either flag alone shows it |
| FilterModal.ActiveFiltersHiddenIffCleared | components/filter-modal.tsx:207 | the block is hidden exactly when no category or duration is checked and both flags are off |
| FilterModal.Modal.constructor | components/filter-modal.tsx:18-26 | the modal starts with the initial filters |
| FilterModal.Modal.HandleCategoryChange | components/filter-modal.tsx:32-38 | only the category list changes, by the checklist update |
| FilterModal.Modal.HandleDurationChange | components/filter-modal.tsx:40-46 | only the duration list changes, by the checklist update |
| FilterModal.Modal.SetSliders | components/filter-modal.tsx:105-170 | only distance, pay and rating change, and they stay on their tracks (rating in half points) |
| FilterModal.Modal.SetFlags | components/filter-modal.tsx:187-197 | only the flags change |
| FilterModal.Modal.HandleReset | components/filter-modal.tsx:48-58 | the filters return to the initial ones, which show no active-filters block |
| FilterModal.Modal.HandleApply | components/filter-modal.tsx:60-63 | the modal closes and the filters are unchanged. Nothing is handed to a parent |
| DistanceFilter.ErrorMessage | components/distance-based-filter.tsx:71-92 | every message is non-empty, and every one except the permission-denied one ends by announcing the fallback to the default location |
| DistanceFilter.ErrorMessagesDistinct | components/distance-based-filter.tsx:74-88 | two codes share a message exactly when they are the same code or neither is one of the three the `switch` names, which all get the one default message |
| DistanceFilter.DeniedMessageHasRefused | components/distance-based-filter.tsx:76-78 | the permission-denied message contains "거부" |
| DistanceFilter.UnavailableMessageLacksRefused | components/distance-based-filter.tsx:79-81 | the position-unavailable message does not contain "거부" |
| DistanceFilter.TimeoutMessageLacksRefused | components/distance-based-filter.tsx:82-84 | the timeout message does not contain "거부" |
| DistanceFilter.OtherMessageLacksRefused | components/distance-based-filter.tsx:85-87 | the message for any other code does not contain "거부" |
| DistanceFilter.UnsupportedMessageLacksRefused | components/distance-based-filter.tsx:35-39 | the unsupported-browser message does not contain "거부" |
| DistanceFilter.GuideOnlyForDeniedPermission | components/distance-based-filter.tsx:268 | the permission guide is shown for an error exactly when the permission was denied, and never for an unsupported browser |
| DistanceFilter.DistanceTextRoundTrip | components/distance-based-filter.tsx:126-131 | the distance text parses back to the distance, both below 1 km ("500m") and from 1 km up ("1.5km") |
| DistanceFilter.MetreTextRoundTrip | components/distance-based-filter.tsx:127-128 | the metre text parses back to the distance |
| DistanceFilter.KmTextRoundTrip | components/distance-based-filter.tsx:129-130 | the kilometre text, with or without ".5", parses back to the distance |
| DistanceFilter.DistanceTextInjective | components/distance-based-filter.tsx:126-131 | two distances never share a label |
| DistanceFilter.EstimatedJobs | components/distance-based-filter.tsx:133-138 | the estimate is `floor(50 + 25 * km)`, stated as bounds on twice the result |
| DistanceFilter.EstimatedJobsMonotone | components/distance-based-filter.tsx:133-138 | a larger radius never estimates fewer jobs |
| DistanceFilter.EstimatedJobsRange | components/distance-based-filter.tsx:133-138 | on the slider the estimate lies between 62 and 300, and the presets estimate 62, 75, 100 and 175 |
| DistanceFilter.CeilHalf | components/distance-based-filter.tsx:254-262 | the result is `ceil(x / 2)` |
| DistanceFilter.TravelTimes | components/distance-based-filter.tsx:254-262 | walking takes 12 minutes per km, cycling 4 and transit `ceil(3 * km)`, so transit ≤ bike ≤ walk |
| DistanceFilter.Dialog.constructor | components/distance-based-filter.tsx:19-22 | no location, 2 km, not loading, no error, closed |
| DistanceFilter.Dialog.SetDefaultLocation | components/distance-based-filter.tsx:97-105 | the location becomes the Jamsil default and loading stops. Nothing else changes |
| DistanceFilter.Dialog.GetCurrentLocation | components/distance-based-filter.tsx:30-48 | without geolocation: the unsupported error and the default location. With it: loading starts, the error clears and a request is outstanding |
| DistanceFilter.Dialog.Open | components/distance-based-filter.tsx:24-28 | opening requests the location as above |
| DistanceFilter.Dialog.OnPosition | components/distance-based-filter.tsx:49-70 | a position sets the location with the geocoded address, or "현재 위치" when geocoding fails. Only a geocoded success clears the error, and loading stops |
| DistanceFilter.Dialog.OnPositionError | components/distance-based-filter.tsx:71-95 | the error message for the code is shown, the default location is used, and loading stops |
| DistanceFilter.Dialog.HandleRetryLocation | components/distance-based-filter.tsx:150-152 | retrying requests the location again |
| DistanceFilter.Dialog.SetDistance | components/distance-based-filter.tsx:209 | only the distance changes, and it stays on its track |
| DistanceFilter.Dialog.SelectPreset | components/distance-based-filter.tsx:234-244 | the preset becomes the distance and is the only preset highlighted |
| DistanceFilter.Dialog.HandleApply | components/distance-based-filter.tsx:140-148 | the parent receives the location, the distance and the estimate for it, and the dialog closes |
| DistanceFilter.ErrorAlertEnablesButtons | components/distance-based-filter.tsx:163-191 | the error alert is shown exactly when there is an error. While it shows, retry ("재시도") and apply are enabled |
| DistanceFilter.LoadingShowsProgress | components/distance-based-filter.tsx:175-191 | while loading, the status reads "위치 확인 중..." and the retry button is disabled and labelled "새로고침" |
| RealMapView.ErrorMessage | components/real-map-view.tsx:79-100 | every error message is a non-empty sentence |
| RealMapView.ErrorMessagesDistinct | components/real-map-view.tsx:79-100 | two codes share a message exactly when they are the same code or neither is one of the three the `switch` names |
| RealMapView.FindJob | components/real-map-view.tsx:178-183 | the lookup finds a job with the id exactly when one exists |
| RealMapView.NavigationAlert | components/real-map-view.tsx:193 | the alert is "길찾기: " + title + the fixed suffix |
| RealMapView.NavigationAlertNamesJob | components/real-map-view.tsx:193 | the title can be read back out of the alert, so different jobs give different alerts |
| RealMapView.Screen.constructor | components/real-map-view.tsx:18-25 | no selection, map mode, no location, no error, not loading |
| RealMapView.Screen.SetDefaultLocation | components/real-map-view.tsx:105-112 | the location becomes the default and loading stops |
| RealMapView.Screen.GetCurrentLocation | components/real-map-view.tsx:54-70 | without geolocation: the unsupported error and the default location. With it: loading starts and the error clears |
| RealMapView.Screen.OnPosition | components/real-map-view.tsx:71-78 | the position becomes the location, the error clears and loading stops |
| RealMapView.Screen.OnPositionError | components/real-map-view.tsx:79-103 | the error message for the code is shown, the default location is used, and loading stops |
| RealMapView.Screen.OnLeafletLoaded | components/real-map-view.tsx:32-52 | only the loaded flag changes |
| RealMapView.Screen.MarkerClick | components/real-map-view.tsx:172-174 | the clicked job becomes the selection |
| RealMapView.Screen.SelectJob | components/real-map-view.tsx:178-183 | a known id selects that job, and an unknown id keeps the selection |
| RealMapView.Screen.HandleNavigation | components/real-map-view.tsx:188-196 | with a location, one navigation alert naming the job is raised. Without one, nothing happens |
| RealMapView.Screen.SetViewMode | components/real-map-view.tsx:213-217 | only the view mode changes |
| RealMapView.RetryLinkOnlyWhenIdle | components/real-map-view.tsx:225-275 | whenever the error alert shows, no request is loading, the locate button is enabled and the default location is in use. The alert ends with the fallback note |
| ReviewSystem.RatingChanged | components/review-system.tsx:106-118 | "overall" sets the overall rating. Any other key sets that category. Nothing else changes |
| ReviewSystem.LatestRatingWins | components/review-system.tsx:106-118 | two changes to the same key leave the later value |
| ReviewSystem.IndependentRatingsCommute | components/review-system.tsx:106-118 | changes to different keys commute |
| ReviewSystem.KnownCategoryKeepsKeys | components/review-system.tsx:37-46 | changing a known key keeps the four category keys, and "overall" never becomes a category |
| ReviewSystem.Received | components/review-system.tsx:248 | the received tab is a subsequence of the reviews. It holds only reviews whose reviewee is a worker, includes every such review, and is exactly as long as the number of them |
| ReviewSystem.Given | components/review-system.tsx:259 | the given tab is a subsequence of the reviews. It holds only reviews written by a worker, includes every such review, and is exactly as long as the number of them |
| ReviewSystem.TabsPartitionReviews | components/review-system.tsx:248-259 | when reviews cross roles, each review is in exactly one tab |
| ReviewSystem.Screen.constructor | components/review-system.tsx:36-46 | the screen starts on "write", with every rating at 5 and an empty comment |
| ReviewSystem.Screen.HandleRatingChange | components/review-system.tsx:106-118 | the draft becomes the changed draft, and the tab is kept |
| ReviewSystem.Screen.SetActiveTab | components/review-system.tsx:127 | only the tab changes |
| ReviewSystem.WriteForm.constructor | components/review-system.tsx:270-279 | the form starts with a rating of 5, every category at 5 and an empty comment |
| ReviewSystem.WriteForm.SetRating | components/review-system.tsx:302-304 | the rating becomes the star clicked, and exactly that many stars are filled |
| ReviewSystem.WriteForm.SetCategory | components/review-system.tsx:318-326 | only that category changes, to the slider value on 1..5 |
| ReviewSystem.WriteForm.SetComment | components/review-system.tsx:337-338 | only the comment changes |
| ReviewSystem.Card.constructor | components/review-system.tsx:365 | the card starts not marked helpful |
| ReviewSystem.Card.ToggleHelpful | components/review-system.tsx:426 | the helpful mark flips |
| Stars.RowShowsRating | components/review-system.tsx:302-304 | a rating of r fills exactly the first r stars |
| Stars.RowInjective | components/review-system.tsx:302-304 | different ratings draw different rows |
| RoleReview.Lookup | components/role-based-review-system.tsx:395 | a label is found exactly when the key is in the table |
| RoleReview.CategoriesFor | components/role-based-review-system.tsx:53-55 | workers get the worker table and employers the employer table |
| RoleReview.FormCategories | components/role-based-review-system.tsx:267 | the form rates the categories of the opposite role |
| RoleReview.FormRatesTheOtherSide | components/role-based-review-system.tsx:37-55 | the form's five categories share only "communication" with the user's own |
| RoleReview.CardLabelsCoverTheRole | components/role-based-review-system.tsx:340-356 | a card finds a label exactly for the categories of the reviewee's role |
| RoleReview.JoinWords | components/role-based-review-system.tsx:340-356 | removing the single space of a two-word label joins the words |
| RoleReview.CardLabelsDropSpaces | components/role-based-review-system.tsx:37-51 | each card label is the form label with its spaces removed |
| RoleReview.DisplayedValue | components/role-based-review-system.tsx:295-298 | `categories[key] \|\| 5`: an unset value and a stored 0 are both shown as 5, and any other stored value as itself |
| RoleReview.SliderChanged | components/role-based-review-system.tsx:299 | the slider adds or overwrites its own key with the chosen value, and every other key keeps its value |
| RoleReview.SliderShowsChoice | components/role-based-review-system.tsx:295-299 | the moved slider shows the value chosen, and the other sliders keep theirs |
| RoleReview.Received | components/role-based-review-system.tsx:224 | the received tab is a subsequence of the reviews. It holds only reviews whose reviewee has the user's role, includes every such review, and is exactly as long as the number of them |
| RoleReview.Given | components/role-based-review-system.tsx:235 | the given tab is a subsequence of the reviews. It holds only reviews whose reviewer has the user's role, includes every such review, and is exactly as long as the number of them |
| RoleReview.TabsPartitionReviews | components/role-based-review-system.tsx:224-235 | when reviews cross roles, each is in exactly one tab, and what one role gave is what the other received |
| RoleReview.Form.constructor | components/role-based-review-system.tsx:246-249 | the form starts with a rating of 5, no categories and an empty comment |
| RoleReview.Form.SetRating | components/role-based-review-system.tsx:279-281 | the rating becomes the star clicked, and exactly that many stars are filled |
| RoleReview.Form.SetCategory | components/role-based-review-system.tsx:291-299 | the chosen slider shows its new value and every other slider is unchanged |
| RoleReview.Form.SetComment | components/role-based-review-system.tsx:314 | only the comment changes |
| RoleReview.FormShowsOnTrackValues | components/role-based-review-system.tsx:295-298 | every slider shows a value on 1..5, set or not |
| Calendar.PrevDay | components/chat-system.tsx:137-138 | the previous day is a valid date different from the input, and it wraps across month and year ends |
| Calendar.PrevNextInverse | components/chat-system.tsx:137-138 | stepping back a day and forward a day undo each other |
| Calendar.PrevDayInjective | components/chat-system.tsx:137-140 | two different days never share "yesterday" |
| ChatSystem.TrimStart | components/chat-system.tsx:80 | the result is a suffix of the input, what it drops is JS whitespace, and it starts with a non-whitespace character |
| ChatSystem.TrimEnd | components/chat-system.tsx:80 | the result is a prefix of the input, what it drops is JS whitespace, and it ends with a non-whitespace character |
| ChatSystem.Trim | components/chat-system.tsx:80 | the trimmed text neither starts nor ends with whitespace |
| ChatSystem.TrimEmptyIffBlank | components/chat-system.tsx:80 | trimming gives "" exactly when the input is all whitespace |
| ChatSystem.MonthDayLabelInjective | components/chat-system.tsx:144-147 | two dates with the same "M월 D일" label have the same month and day |
| ChatSystem.FormatDate | components/chat-system.tsx:129-148 | "오늘" exactly for today, "어제" exactly for yesterday, and otherwise the month and day label |
| ChatSystem.SameDayNoSeparator | components/chat-system.tsx:195 | no date separator is drawn between two messages of the same day |
| ChatSystem.NewDaySeparated | components/chat-system.tsx:195 | a separator is drawn whenever the month or the day changes |
| ChatSystem.YearApartNotSeparated | components/chat-system.tsx:195 | messages on the same month and day of different years, neither today nor yesterday, get no separator |
| ChatSystem.Chat.constructor | components/chat-system.tsx:32-68 | the chat starts with the given messages, an empty input and nobody typing |
| ChatSystem.Chat.SetNewMessage | components/chat-system.tsx:277 | only the input changes |
| ChatSystem.Chat.HandleSendMessage | components/chat-system.tsx:79-92 | a blank input changes nothing. Otherwise the untrimmed text is appended as the user's message and the input is cleared |
| ChatSystem.Chat.HandleKeyPress | components/chat-system.tsx:278 | Enter sends as above, and any other key changes nothing |
| ChatSystem.Chat.StartTyping | components/chat-system.tsx:95-96 | the typing indicator turns on |
| ChatSystem.Chat.DeliverReply | components/chat-system.tsx:97-116 | one of the four canned replies is appended from the contact, and the indicator turns off |
| ChatSystem.SendButtonMatchesGuard | components/chat-system.tsx:80-285 | the send button is disabled exactly when the input is all whitespace, that is exactly when sending would do nothing |
| MyActivity.StatusText | components/my-activity-screen.tsx:440-455 | each of the five kinds has its label, and "알 수 없음" appears exactly for an unknown kind |
| MyActivity.StatusTextDistinguishesKinds | components/my-activity-screen.tsx:440-455 | each known kind's label belongs to that kind alone |
| MyActivity.StatusColor | components/my-activity-screen.tsx:423-438 | applied, matched, ongoing and cancelled get their own colours |
| MyActivity.GrayBadgeIffCompletedOrUnknown | components/my-activity-screen.tsx:423-438 | the grey badge marks exactly the completed and the unknown kinds |
| MyActivity.PostingStatusText | components/my-activity-screen.tsx:588-599 | each posting status has its label, and "알 수 없음" appears exactly for an unknown one |
| MyActivity.PostingStatusColor | components/my-activity-screen.tsx:575-586 | active and filled postings get their own colours |
| MyActivity.PostingGrayIffExpiredOrUnknown | components/my-activity-screen.tsx:575-586 | the grey badge marks exactly the expired and the unknown statuses |
| MyActivity.Actions | components/my-activity-screen.tsx:531-557 | with actions on, a matched job offers check-in, contact and directions, and an applied job offers cancel. Nothing is offered otherwise |
| MyActivity.ActionSetsExclusive | components/my-activity-screen.tsx:531-557 | no card offers both check-in and cancel |
| MyActivity.TimeRange | components/my-activity-screen.tsx:507-511 | the time line is drawn exactly when both times are non-empty, and it reads "start - end" |
| MyActivity.ApplicantsAsWritten | components/my-activity-screen.tsx:524-529 | a count of 0 renders a stray "0", and no count renders nothing |
| MyActivity.Applicants | components/my-activity-screen.tsx:524-529 | the applicants line is drawn exactly for a present non-zero count |
| MyActivity.ZeroApplicantsShowStrayText | components/my-activity-screen.tsx:524-529 | the code as written and the corrected one differ only on a count of 0 |
| MyActivity.JobCard | components/my-activity-screen.tsx:507-557 | a card shows the kind's label, the time line, the applicants line and the buttons its kind allows |
| MyActivity.CurrentTab | components/my-activity-screen.tsx:242-252 | one card per current job, in order, with actions on |
| MyActivity.CompletedTab | components/my-activity-screen.tsx:269-271 | one card per completed job, with no buttons |
| MyActivity.CurrentTabOffersCheckIn | components/my-activity-screen.tsx:242-271 | on the current tab a card offers check-in exactly for a matched job and cancel exactly for an applied one. The same job on the completed tab offers nothing |
| MyActivity.Screen.constructor | components/my-activity-screen.tsx:63-68 | the screen starts on "current" with every dialog closed and nothing selected |
| MyActivity.Screen.HandleCheckIn | components/my-activity-screen.tsx:161-164 | the job is selected and the check-in modal opens. Nothing else changes |
| MyActivity.Screen.CloseCheckIn | components/my-activity-screen.tsx:161-164 | the check-in modal closes and the selection is kept |
| MyActivity.Screen.HandleEditPosting | components/my-activity-screen.tsx:180-183 | the posting is selected and the edit modal opens |
| MyActivity.Screen.SetActiveTab | components/my-activity-screen.tsx:63 | only the tab changes |
| CheckInModal.Dialog.constructor | components/check-in-modal.tsx:17-18 | the dialog starts neither checked in nor loading |
| CheckInModal.Dialog.ClickCheckIn | components/check-in-modal.tsx:22-23 | a click on the enabled button starts loading and disables it. A click otherwise does nothing |
| CheckInModal.Dialog.CompleteCheckIn | components/check-in-modal.tsx:26-36 | after the wait the check-in always succeeds, loading stops and the close timer starts |
| CheckInModal.Dialog.FireCloseTimer | components/check-in-modal.tsx:36-38 | the timer calls `onClose` once and the dialog stays checked in |
| CheckInModal.Dialog.Render | components/check-in-modal.tsx:20-114 | nothing without a job. Before check-in: the form, with "출근 체크 중..." and disabled while loading. After: the success panel |
| CheckInModal.LoadingLabelIffDisabled | components/check-in-modal.tsx:98-104 | the button is disabled exactly when it reads "출근 체크 중...", and the success panel never shows during loading |
| CheckInModal.CheckInRun | components/check-in-modal.tsx:22-39 | from a fresh dialog, click, wait and timer end on the success panel with exactly one close request |

## Left out

- **No distance check.** The check-in never measures how far the worker is from the job. There is no distance or radius computation. The "within 100 m" line (components/check-in-modal.tsx:79) is fixed text, and check-in succeeds after a fixed wait.
- **Browser geolocation.** The browser API is not modelled. Support is a parameter, and a success or a failure is a separate method call that needs an outstanding request.
- **Reverse geocoding.** Its random address is a parameter of `DistanceFilter.Dialog.OnPosition` (`None` when geocoding fails).
- **Leaflet.** Loading the script is reduced to a flag (`OnLeafletLoaded`). Drawing the map, tiles and markers is presentational and not modelled. The random marker offsets are not modelled either.
- **Other randomness.**
  - The chat reply is an index parameter.
  - The activity chart's random bar heights are not modelled.
- **Clocks and ids.**
  - `Date.now()` ids and `new Date()` timestamps are parameters.
  - The "today" used to format chat dates is a parameter.
  - Timer delays are implicit: each timer firing is its own method call.
- **`formatTime`.** The chat's time-of-day format comes from the locale library and is not modelled.
- **Toast-only handlers.** The my-activity screen's contact, cancel-application, delete-posting and navigation handlers only raise toasts, and they are not modelled. The toast that follows a successful check-in is not modelled either.
- **Parent callbacks.** `onJobSelect` and `onBack` are not modelled; the map view's `onJobSelect` is the selection made there. The schedule and posting-edit dialogs are external components.
- **The distance dialog's invariant is weaker than the default-location fallback.** The invariant does not say "an error implies the default location". A later request whose geocoding fails keeps the old error while setting a real position, so the implication does not hold in every reachable state.
- **Key order.** The order `Object.entries` lists the categories in is not modelled; the category tables are maps.
- **Auth-modal display state.** The tab and show-password state only change what is displayed.
- **Review-system rating handler.** `handleRatingChange` (components/review-system.tsx:106-118) is never connected to the rendered form. It is modelled as `ReviewSystem.Screen.HandleRatingChange` all the same.
- **The `{distance[0]}km` heading** (components/distance-based-filter.tsx:225) is not modelled; the distance text and slider are.
- **The review card's helpful count** is the stored number. Toggling the mark does not change it, and the model does not show it.
- **The job card's rating line** (`job.rating && ...`, components/my-activity-screen.tsx:514) has the same zero quirk as the applicants line. A rating is never 0 in the screen's data, so only the applicants line is modelled.
- **Presentational parts.** Icons, layout, the statistics cards and the posting card's buttons are not modelled.
- RealMapView.ErrorMessage: states that each message is a non-empty sentence. Which codes share a message is proved in `RealMapView.ErrorMessagesDistinct`, but the wording of each message is not restated.
- DistanceFilter.ErrorMessage: states that each message is non-empty and that all but the permission message announce the fallback. Which codes share a message is proved in `DistanceFilter.ErrorMessagesDistinct`, and the permission guide trigger in the "거부" lemmas, but the wording of each message is not restated.

## Findings

| source | as written | input that shows it | evidently intended | confidence | as-written member | corrected member |
|---|---|---|---|---|---|---|
| components/my-activity-screen.tsx:524-529 | `{job.applicants && (...)}` renders the number itself when the count is 0, so the card shows a bare "0" | a job whose `applicants` is 0 | no applicants line at all for a count of 0 | medium, not executed | MyActivity.ApplicantsAsWritten | MyActivity.Applicants |
