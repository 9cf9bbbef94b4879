# OnTheSpot in Dafny

OnTheSpot is a campus crowd-status app. Students see spots on campus (a
library floor, a canteen, a bus terminal, a parking lot) with a live status
such as "Quiet", "Short Wait" or "Occupied". They report status changes and
earn contribution points. They can search and filter spots, host small plans
("hangouts") at a spot, and chat inside a plan. The shared state lives in a
cloud document store. Live listeners mirror it into the arrays the screens
observe.

This project models the logic under those screens:

- the status vocabulary: titles, icons, colour tiers, raw values, and the
  three status groups;
- which status buttons a spot's category offers, and the category icon;
- the search screen's filters, its best-status-first ordering, and the
  trending strip;
- the local profile store: level, progress, points, notifications, and
  adding spots;
- the cloud sync manager, over an abstract store:
  - listener callbacks: spots, the hidden and blocked lists, plans, chat;
  - writes: add, update, delete and hide a spot, counters, plan membership,
    messages, blocking;
- the spot detail screen's status tap and its edit sheet;
- the plan form;
- the group chat and its info sheet;
- the vibe-tag selection, shared by onboarding and profile editing;
- another user's profile page;
- the hex colour decoder and the app palette.

Screens that change state are classes with `modifies` clauses. Each state
change is proved against a pure specification function, and lemmas relate
those functions: round trips, idempotence, preserved invariants, and
"nothing else changes".

Conventions used throughout:

- The store is explicit: `Store.Store` holds spot, user, plan and message
  documents.
- The signed-in user id is a field (`currentUid`).
- Each write takes an `online` flag that says whether it reaches the store.
- Times (`Date()`) and fresh identifiers (`UUID()`) are parameters.
- A write's completion handler runs as part of the same call.
- Integers are mathematical integers. Swift's `%` (truncating) is written
  out where it matters.

## Model

| member | source | states |
|---|---|---|
| LocationStatusModel.AxisMembers | OnTheSpot/Core/Models/LocationStatus.swift:5-7 | a status is listed in a group iff it is declared in that group |
| LocationStatusModel.EightStatusesInThreeGroups | OnTheSpot/Core/Models/LocationStatus.swift:5-7 | there are exactly eight distinct statuses; every status is one of them; the three groups, in order, are the whole list |
| LocationStatusModel.TitleInjective | OnTheSpot/Core/Models/LocationStatus.swift:9-20 | distinct statuses have distinct titles; justRight is titled "Moderate" and inUse "Occupied" |
| LocationStatusModel.FromIconName | OnTheSpot/Core/Models/LocationStatus.swift:22-33 | reading a status back from an icon name gives a status with that icon, or none when no status has it |
| LocationStatusModel.IconRoundTrip | OnTheSpot/Core/Models/LocationStatus.swift:22-33 | every status is recovered from its icon name |
| LocationStatusModel.IconNameInjective | OnTheSpot/Core/Models/LocationStatus.swift:22-33 | distinct statuses have distinct icon names |
| LocationStatusModel.ColorPartition | OnTheSpot/Core/Models/LocationStatus.swift:35-41 | the accent tier is exactly quiet/noLine/available, yellow is exactly justRight/shortLine, red is exactly noisy/longLine/inUse |
| LocationStatusModel.FromRawValue | OnTheSpot/Core/Models/LocationStatus.swift:4 | decoding a string gives a status whose raw value is that string, or none when no status has it |
| LocationStatusModel.RawValueRoundTrip | OnTheSpot/Core/Models/LocationStatus.swift:4 | decoding the raw value of any status gives that status |
| LocationStatusModel.RawValueRoundTripBack | OnTheSpot/Core/Models/LocationStatus.swift:4 | a string that decodes is the raw value of what it decodes to |
| LocationStatusModel.Aliases | OnTheSpot/Core/Models/LocationStatus.swift:45-48 | `moderate` is shortLine and `occupied` is inUse |
| Models.MockData | OnTheSpot/Core/Models/Location.swift:12-19 | six seeded spots, each with its given id and the launch time |
| Models.FirstIndexOf | OnTheSpot/Core/Services/DataManager.swift:51 | none iff no spot has the id; otherwise an index holding the id with no earlier index holding it |
| Seqs.SortBy | OnTheSpot/Features/Home/ViewModels/SearchViewModel.swift:49 | the result is a permutation of the input, ordered by the key |
| StatusUpdate.StatusOptions | OnTheSpot/Features/LocationDetails/Views/StatusUpdateView.swift:13-31 | two or three buttons, all from one status group |
| StatusUpdate.QueueBasedExactly | OnTheSpot/Features/LocationDetails/Views/StatusUpdateView.swift:38-40 | queue-based iff the category is Cafe, Fast Food, Canteen, Terminal or Marketplace |
| StatusUpdate.AvailabilityBasedExactly | OnTheSpot/Features/LocationDetails/Views/StatusUpdateView.swift:42-44 | availability-based iff the category is Laundry, Parking or Facility |
| StatusUpdate.CategoryClassesDisjoint | OnTheSpot/Features/LocationDetails/Views/StatusUpdateView.swift:15-31 | no category is both, so exactly one branch is taken |
| StatusUpdate.OptionsAreTheCategoryGroup | OnTheSpot/Features/LocationDetails/Views/StatusUpdateView.swift:15-31 | queue categories offer [noLine, shortLine, longLine]; availability categories offer [available, inUse]; every other string offers [quiet, justRight, noisy]; the buttons are exactly the members of the category's group |
| StatusCard.CategoryIcon | OnTheSpot/Core/Components/StatusCardView.swift:64-73 | Fast Food and Canteen get "fork.knife"; Parking, Terminal, Study Spot and Facility get their own icons; any other string gets the pin; the icon is never empty |
| StatusCard.UnlistedCategoriesGetThePin | OnTheSpot/Core/Components/StatusCardView.swift:71 | "Cafe", "Laundry" and "Marketplace" fall through to the pin |
| Search.FirstVibe | OnTheSpot/Features/Home/ViewModels/SearchViewModel.swift:45 | none iff no vibe has the title; otherwise the vibe at the first index whose title matches |
| Search.Score | OnTheSpot/Features/Home/ViewModels/SearchViewModel.swift:52-58 | 3, 2 or 1, exactly following the accent, yellow and red colour tiers |
| Search.FilteredLocationsSpec | OnTheSpot/Features/Home/ViewModels/SearchViewModel.swift:30-50 | each spot occurs in the result as often as in the input when the text, category and vibe filters admit it, and not at all otherwise; scores never increase along the result |
| Search.FilteredAreAdmitted | OnTheSpot/Features/Home/ViewModels/SearchViewModel.swift:33-47 | every result is an input spot; its name or category contains the text, ignoring case; it has the selected category; its status is among the selected vibe's statuses |
| Search.NoFilterIsPermutation | OnTheSpot/Features/Home/ViewModels/SearchViewModel.swift:30-50 | with no filter set, the result is a reordering of all spots |
| Search.UnknownVibeFiltersNothing | OnTheSpot/Features/Home/ViewModels/SearchViewModel.swift:44-47 | a selected vibe title that names no vibe filters nothing |
| Search.VibesPartitionStatuses | OnTheSpot/Features/Home/ViewModels/SearchViewModel.swift:15-19 | every status belongs to exactly one of the three vibes |
| Search.VibeTitlesDistinct | OnTheSpot/Features/Home/ViewModels/SearchViewModel.swift:15-19 | the vibe titles are distinct |
| Search.Toggled | OnTheSpot/Features/Home/ViewModels/SearchViewModel.swift:61-62 | the selection becomes nil iff it equalled the argument, and otherwise becomes the argument |
| Search.ToggleTwice | OnTheSpot/Features/Home/ViewModels/SearchViewModel.swift:61-62 | toggling twice restores an empty or matching selection |
| Search.SearchViewModel.constructor | OnTheSpot/Features/Home/ViewModels/SearchViewModel.swift:5-9 | starts with no text, no selection and no spots, not filtering |
| Search.SearchViewModel.AssignLocations | OnTheSpot/Features/Home/ViewModels/SearchViewModel.swift:21-27 | the synced spots replace `allLocations`; the filters are untouched |
| Search.SearchViewModel.SetSearchText | OnTheSpot/Features/Home/ViewModels/SearchViewModel.swift:5 | only the text changes |
| Search.SearchViewModel.ToggleCategory | OnTheSpot/Features/Home/ViewModels/SearchViewModel.swift:61 | the category selection is toggled; nothing else changes |
| Search.SearchViewModel.ToggleVibe | OnTheSpot/Features/Home/ViewModels/SearchViewModel.swift:62 | the vibe selection is toggled; nothing else changes |
| Search.SearchViewModel.ClearAll | OnTheSpot/Features/Home/ViewModels/SearchViewModel.swift:63 | all filters are cleared, so not filtering, and the results are all spots reordered |
| Search.SearchViewModel.NotFilteringShowsAll | OnTheSpot/Features/Home/ViewModels/SearchViewModel.swift:60 | while not filtering, the results are a reordering of all spots |
| Search.SearchViewModel.TrendingLocations | OnTheSpot/Features/Home/ViewModels/SearchViewModel.swift:64 | a prefix of the spots, of length min(3, n) |
| Store.ArrayUnion | OnTheSpot/Core/Services/CloudDataManager.swift:135 | the elements become the old ones plus x; the old list is a prefix; a list without duplicates stays so |
| Store.ArrayRemove | OnTheSpot/Core/Services/CloudDataManager.swift:140 | the elements become the old ones minus x, in their old order |
| Store.ArrayUnionIdempotent | OnTheSpot/Core/Services/CloudDataManager.swift:135 | adding the same element twice is adding it once |
| Store.ArrayUnionOnce | OnTheSpot/Core/Services/CloudDataManager.swift:203 | in a duplicate-free list, x occurs exactly once after union |
| Store.UnionIntoField | OnTheSpot/Core/Services/CloudDataManager.swift:63-65 | the field becomes a string list holding x; other fields are unchanged |
| Store.RemoveFromField | OnTheSpot/Core/Services/CloudDataManager.swift:140 | the field becomes a string list without x; other fields are unchanged |
| Store.IncrementField | OnTheSpot/Core/Services/CloudDataManager.swift:111-113 | the field becomes its old integer (0 when missing) plus the amount; other fields are unchanged |
| Store.DecodeLocation | OnTheSpot/Core/Services/CloudDataManager.swift:34-36 | decoding fails iff the status string names no status; a decoded spot has the document's id and encodes back to the document |
| Store.LocationRoundTrip | OnTheSpot/Core/Services/CloudDataManager.swift:43 | a spot written under its id string reads back as the same spot |
| DataManagerModel.UserLevel | OnTheSpot/Core/Services/DataManager.swift:24-28 | "Campus Legend" iff points > 500; "Pro Spotter" iff 200 < points <= 500; "Rookie" iff points <= 200 |
| DataManagerModel.ProgressNumerator | OnTheSpot/Core/Services/DataManager.swift:30-34 | for non-negative points it lies in [0, 200), for negative ones in (-200, 0]; it differs from the points by a multiple of 200 |
| DataManagerModel.StatusNotification | OnTheSpot/Core/Services/DataManager.swift:58-64 | titled "Status Update: " + name; the icon identifies the spot's status; the message ends with the upper-cased title; unread, at the given time |
| DataManagerModel.NotificationsTellStatusesApart | OnTheSpot/Core/Services/DataManager.swift:58-64 | spots with different statuses give different notifications |
| DataManagerModel.DataManager.constructor | OnTheSpot/Core/Services/DataManager.swift:8-42 | the default profile, the mock spots, 120 points (a Rookie, 120/200 towards the next level), 5 spots, and one Welcome notification |
| DataManagerModel.DataManager.Binding | OnTheSpot/Core/Services/DataManager.swift:50-56 | none iff no spot has the id; otherwise the first index holding it |
| DataManagerModel.DataManager.AddPointsForNewSpot | OnTheSpot/Core/Services/DataManager.swift:72 | +50 points and +1 spot; nothing else changes |
| DataManagerModel.DataManager.AddPointsForUpdate | OnTheSpot/Core/Services/DataManager.swift:73 | +10 points; the spot count and everything else unchanged |
| DataManagerModel.DataManager.AddLocation | OnTheSpot/Core/Services/DataManager.swift:45-48 | appends the spot (the old list is a prefix) and awards the new-spot bonus |
| DataManagerModel.DataManager.TriggerNotification | OnTheSpot/Core/Services/DataManager.swift:58-66 | puts exactly one notification for the spot at the front; the rest is the old list |
| DataManagerModel.DataManager.ClearNotifications | OnTheSpot/Core/Services/DataManager.swift:68-70 | the feed is empty; nothing else changes |
| DataManagerModel.DataManager.ApplyRemoteProfile | OnTheSpot/Core/Services/CloudDataManager.swift:96-104 | each profile field takes its typed value from the document, or its default (User, Rookie, Unknown, 0, 0) |
| Cloud.VisibleSpots | OnTheSpot/Core/Services/CloudDataManager.swift:31-38 | exactly the decodable spots whose id is not hidden; written back as documents they form a subsequence of the snapshot (snapshot order) |
| Cloud.CompactMap | OnTheSpot/Core/Services/CloudDataManager.swift:157 | every decoded document's value, as often as it occurs and in snapshot order (a subsequence of the snapshot), and nothing else |
| Cloud.DecodedMessagesSorted | OnTheSpot/Core/Services/CloudDataManager.swift:150-157 | dropping undecodable documents keeps a timestamp-ordered snapshot ordered |
| Cloud.ChatQuery | OnTheSpot/Core/Services/CloudDataManager.swift:150-151 | one decodable document per stored message of the plan |
| Cloud.ChatSnapshotOfStore | OnTheSpot/Core/Services/CloudDataManager.swift:149-158 | the chat listener shows all stored messages, in ascending timestamp order |
| Cloud.DecodedPlans | OnTheSpot/Core/Services/CloudDataManager.swift:124-129 | a plan is listed iff some document decodes to it once stamped with that document's id; every listed plan has an id; each stamped plan occurs as often as in the snapshot, in snapshot order |
| Cloud.WithoutSpot | OnTheSpot/Core/Services/CloudDataManager.swift:68 | exactly the spots with another id, in their old order |
| Cloud.StatIncremented | OnTheSpot/Core/Services/CloudDataManager.swift:109-114 | only the user's counter grows by the amount; a missing user document is left as it was |
| Cloud.StatusWritten | OnTheSpot/Core/Services/CloudDataManager.swift:47-51 | only that spot changes; it decodes with the new status and time, and the same name, category and coordinate; a missing spot is left as it was |
| Cloud.UserListUnion | OnTheSpot/Core/Services/CloudDataManager.swift:63-65 | the user's list holds the id; every other field and user is unchanged |
| Cloud.UserListUnionIdempotent | OnTheSpot/Core/Services/CloudDataManager.swift:202-204 | set-adding the same id twice is set-adding it once |
| Cloud.Joined | OnTheSpot/Core/Services/CloudDataManager.swift:133-136 | the participants become the old ones plus the user; nothing else in the plan or the store changes |
| Cloud.Left | OnTheSpot/Core/Services/CloudDataManager.swift:138-141 | the participants become the old ones minus the user; nothing else changes |
| Cloud.JoinIgnoresCapacity | OnTheSpot/Core/Services/CloudDataManager.swift:133-136 | joining a full plan pushes it over `maxParticipants` |
| Cloud.JoinLeaveMembership | OnTheSpot/Core/Services/CloudDataManager.swift:133-141 | leave-then-join makes a member; join-then-leave does not |
| Cloud.HostCanLeave | OnTheSpot/Core/Services/CloudDataManager.swift:138-141 | leaving removes even the host |
| Cloud.MessageAdded | OnTheSpot/Core/Services/CloudDataManager.swift:170 | the plan's messages gain the message at the end; other plans are unchanged |
| Cloud.CloudDataManager.constructor | OnTheSpot/Core/Services/CloudDataManager.swift:9-19 | empty published arrays over the given store |
| Cloud.CloudDataManager.OnUserDocument | OnTheSpot/Core/Services/CloudDataManager.swift:24-28 | the hidden ids are replaced only by a string-array field; the current spots are not re-filtered |
| Cloud.CloudDataManager.OnSpotsSnapshot | OnTheSpot/Core/Services/CloudDataManager.swift:31-39 | the spots become the visible spots of the snapshot, none of them hidden; no snapshot changes nothing |
| Cloud.CloudDataManager.OnPlansSnapshot | OnTheSpot/Core/Services/CloudDataManager.swift:121-130 | the active plans become the decoded plans |
| Cloud.CloudDataManager.ListenToChat | OnTheSpot/Core/Services/CloudDataManager.swift:149-152 | the chat listener follows that plan |
| Cloud.CloudDataManager.OnChatSnapshot | OnTheSpot/Core/Services/CloudDataManager.swift:152-158 | the whole message list is replaced by the decoded messages |
| Cloud.CloudDataManager.OnBlockedUsersDocument | OnTheSpot/Core/Services/CloudDataManager.swift:221-227 | the blocked ids are replaced only by a string-array field |
| Cloud.CloudDataManager.IncrementStat | OnTheSpot/Core/Services/CloudDataManager.swift:109-114 | a no-op when signed out; otherwise the counter increment |
| Cloud.CloudDataManager.AddLocation | OnTheSpot/Core/Services/CloudDataManager.swift:42-45 | stores the spot under its id string, then adds 1 to "spotsAdded"; no points; local arrays unchanged |
| Cloud.CloudDataManager.UpdateStatus | OnTheSpot/Core/Services/CloudDataManager.swift:47-53 | rewrites the spot's status and time, then adds 10 to "points" |
| Cloud.CloudDataManager.DeleteLocation | OnTheSpot/Core/Services/CloudDataManager.swift:55-57 | the spot document is gone once the write lands |
| Cloud.CloudDataManager.HideLocation | OnTheSpot/Core/Services/CloudDataManager.swift:59-71 | a no-op when signed out; when the write succeeds the id is set-added and the local spots with that id are dropped; otherwise nothing changes |
| Cloud.CloudDataManager.CreatePlan | OnTheSpot/Core/Services/CloudDataManager.swift:117-119 | the plan is stored under a fresh document id |
| Cloud.CloudDataManager.JoinPlan | OnTheSpot/Core/Services/CloudDataManager.swift:133-136 | set-adds the user; a no-op when signed out or the plan has no id |
| Cloud.CloudDataManager.LeavePlan | OnTheSpot/Core/Services/CloudDataManager.swift:138-141 | set-removes the user; a no-op when signed out or the plan has no id |
| Cloud.CloudDataManager.DeletePlan | OnTheSpot/Core/Services/CloudDataManager.swift:143-146 | removes the plan document when the plan has an id |
| Cloud.CloudDataManager.SendMessage | OnTheSpot/Core/Services/CloudDataManager.swift:161-171 | appends a text message from the signed-in user under the cached name; a no-op when signed out |
| Cloud.CloudDataManager.SendImageMessage | OnTheSpot/Core/Services/CloudDataManager.swift:179-196 | appends "Sent an image" with the payload; nothing when signed out or the image does not encode |
| Cloud.CloudDataManager.BlockUser | OnTheSpot/Core/Services/CloudDataManager.swift:199-207 | set-adds in the store; appends locally whatever the write's outcome |
| Cloud.CloudDataManager.FetchAnyUserProfile | OnTheSpot/Core/Services/CloudDataManager.swift:230-238 | the stored fields, or name "Unknown User" and bio "No Bio" when unreadable |
| Cloud.CloudDataManager.Binding | OnTheSpot/Core/Services/CloudDataManager.swift:174-177 | none iff no synced spot has the id; otherwise the first index holding it |
| Cloud.BlockSameUserTwice | OnTheSpot/Core/Services/CloudDataManager.swift:199-207 | blocking twice leaves [u, u] locally but [u] in the store |
| LocationDetail.EditCategoriesDistinct | OnTheSpot/Features/LocationDetails/Views/LocationDetailView.swift:104 | the picker lists eight distinct categories |
| LocationDetail.EditCategoriesReachEveryGroup | OnTheSpot/Features/LocationDetails/Views/LocationDetailView.swift:104 | every status group is reachable from the picker, but the queue-based "Marketplace" is not offered |
| LocationDetail.LocationDetailScreen.TapStatus | OnTheSpot/Features/LocationDetails/Views/LocationDetailView.swift:65-73 | on a writable binding the spot takes the tapped button's status and the tap time; on a constant binding it stays as it was; exactly one notification for the spot as it then reads is added; points, spot count, the spot list and the profile fields are unchanged |
| LocationDetail.TapFromSearch | OnTheSpot/Features/Home/Views/SearchView.swift:87 | a tap on a spot opened from the search results leaves the spot unchanged and notifies with its old status |
| LocationDetail.TapOutcome | OnTheSpot/Features/LocationDetails/Views/LocationDetailView.swift:65-72 | the tapped status is in the category's group; name, category and coordinate are kept; the notification names the tapped status |
| LocationDetail.LocationDetailScreen.EditName | OnTheSpot/Features/LocationDetails/Views/LocationDetailView.swift:113 | only the name changes, and nothing on a constant binding |
| LocationDetail.LocationDetailScreen.EditCategory | OnTheSpot/Features/LocationDetails/Views/LocationDetailView.swift:116-120 | only the category changes, to a listed one, and nothing on a constant binding |
| CreatePlan.NewPlan | OnTheSpot/Features/LocationDetails/Views/CreatePlanView.swift:72-89 | the host is the only participant; the host id is the uid or "TEST_USER"; the host name is the cached name or "Unknown"; every form value is copied unchanged |
| CreatePlan.CreatePlanForm.constructor | OnTheSpot/Features/LocationDetails/Views/CreatePlanView.swift:12-17 | empty title, start now, end an hour later, 4 guests, invites allowed, tag "Social"; valid, and Create disabled |
| CreatePlan.CreatePlanForm.SetTitle | OnTheSpot/Features/LocationDetails/Views/CreatePlanView.swift:66 | Create is enabled iff the title is non-empty |
| CreatePlan.CreatePlanForm.SetStart | OnTheSpot/Features/LocationDetails/Views/CreatePlanView.swift:40 | the start moves, from now on; the end stays |
| CreatePlan.CreatePlanForm.SetEnd | OnTheSpot/Features/LocationDetails/Views/CreatePlanView.swift:41 | the chosen end is not before the start |
| CreatePlan.CreatePlanForm.IncrementGuests | OnTheSpot/Features/LocationDetails/Views/CreatePlanView.swift:46 | +1 up to 20; the guest count stays in 2...20 |
| CreatePlan.CreatePlanForm.DecrementGuests | OnTheSpot/Features/LocationDetails/Views/CreatePlanView.swift:46 | -1 down to 2; the guest count stays in 2...20 |
| CreatePlan.CreatePlanForm.SetAllowInvites | OnTheSpot/Features/LocationDetails/Views/CreatePlanView.swift:47 | only the invite switch changes |
| CreatePlan.CreatePlanForm.SelectTag | OnTheSpot/Features/LocationDetails/Views/CreatePlanView.swift:31-35 | only the tag changes, to a listed one |
| CreatePlan.CreatePlanForm.Create | OnTheSpot/Features/LocationDetails/Views/CreatePlanView.swift:72-91 | the store gains exactly the plan built from the form; the manager's published arrays, hidden and blocked ids, sign-in and chat plan are unchanged |
| CreatePlan.StartAfterEnd | OnTheSpot/Features/LocationDetails/Views/CreatePlanView.swift:40-41 | moving the start past the end leaves the end before the start |
| GroupChat.Bubble | OnTheSpot/Features/LocationDetails/Views/GroupChatView.swift:103-117 | avatar and sender name iff the message is not the user's own; trailing and filled iff it is |
| GroupChat.SignedOutSeesAllNames | OnTheSpot/Core/Models/ChatMessage.swift:12-14 | signed out, no message is the user's own |
| GroupChat.GroupChatScreen.constructor | OnTheSpot/Features/LocationDetails/Views/GroupChatView.swift:4-12 | empty text and no picked image; the send button hidden |
| GroupChat.GroupChatScreen.TypeText | OnTheSpot/Features/LocationDetails/Views/GroupChatView.swift:46-50 | the send button is shown iff the text is non-empty |
| GroupChat.GroupChatScreen.OnAppear | OnTheSpot/Features/LocationDetails/Views/GroupChatView.swift:83 | the chat listener starts only when the plan has an id; the store, the messages, the spots, the plans and the hidden and blocked ids are unchanged |
| GroupChat.GroupChatScreen.Send | OnTheSpot/Features/LocationDetails/Views/GroupChatView.swift:91-95 | with text and a plan id, exactly the typed text is sent and the field is cleared; otherwise nothing changes; the manager's published arrays and lists are unchanged |
| GroupChat.GroupChatScreen.OnImagePicked | OnTheSpot/Features/LocationDetails/Views/GroupChatView.swift:86-88 | an image is sent only when one was picked and the plan has an id; the manager's published arrays and lists are unchanged |
| GroupChat.SendTwiceSendsOnce | OnTheSpot/Features/LocationDetails/Views/GroupChatView.swift:91-95 | a second tap after a send sends nothing |
| ChatInfo.GalleryImages | OnTheSpot/Features/LocationDetails/Views/ChatInfoView.swift:9-11 | exactly the messages with an image, each as often as in the chat, in chat order |
| ChatInfo.NoImagesTextExactly | OnTheSpot/Features/LocationDetails/Views/ChatInfoView.swift:45-46 | "No images shared yet." is shown iff no message carries an image |
| ChatInfo.MemberLabel | OnTheSpot/Features/LocationDetails/Views/ChatInfoView.swift:36 | "Host" iff the id is the host's, else "Member" |
| ChatInfo.MemberRows | OnTheSpot/Features/LocationDetails/Views/ChatInfoView.swift:30-41 | one row per participant entry, in order, labelled Host iff it is the host |
| ChatInfo.MemberCount | OnTheSpot/Features/LocationDetails/Views/ChatInfoView.swift:30 | the header count equals the number of rows |
| ChatInfo.NewPlanMembers | OnTheSpot/Features/LocationDetails/Views/ChatInfoView.swift:30-36 | a new plan lists one member, its host, as "Host" |
| Tags.Toggled | OnTheSpot/Features/Profile/Views/EditProfileView.swift:129-132 | the tag ends up selected iff it was not and fewer than 3 were; other tags are unchanged; at most 3 stay at most 3 |
| Tags.ToggleTwice | OnTheSpot/Features/Profile/Views/EditProfileView.swift:129-132 | from at most 3 tags, toggling a tag twice restores the selection |
| Tags.ToggleTwiceAboveCap | OnTheSpot/Features/Profile/Views/EditProfileView.swift:129-132 | above 3 tags, a removed tag cannot be toggled back |
| Tags.TapsKeepCap | OnTheSpot/Features/Onboarding/ProfileSetupView.swift:177-183 | no series of taps takes at most 3 tags above 3 |
| EditProfile.EditProfileScreen.constructor | OnTheSpot/Features/Profile/Views/EditProfileView.swift:12 | starts with no tag selected |
| EditProfile.EditProfileScreen.OnAppear | OnTheSpot/Features/Profile/Views/EditProfileView.swift:125 | the selection is exactly the stored tags |
| EditProfile.EditProfileScreen.ToggleTag | OnTheSpot/Features/Profile/Views/EditProfileView.swift:129-132 | the cap-3 toggle, keeping at most 3 |
| EditProfile.EditProfileScreen.SaveChanges | OnTheSpot/Features/Profile/Views/EditProfileView.swift:134-145 | saves the cached profile fields with exactly the selected tags |
| EditProfile.FourStoredTags | OnTheSpot/Features/Profile/Views/EditProfileView.swift:125 | loading four stored tags selects four: the cap is not applied on load |
| ProfileSetup.ProfileSetupScreen.constructor | OnTheSpot/Features/Onboarding/ProfileSetupView.swift:9-19 | step 1, empty fields, no tags, not loading; Next disabled |
| ProfileSetup.ProfileSetupScreen.EditIdentity | OnTheSpot/Features/Onboarding/ProfileSetupView.swift:12-14 | the step-1 fields change; the wizard stays valid |
| ProfileSetup.ProfileSetupScreen.ToggleTag | OnTheSpot/Features/Onboarding/ProfileSetupView.swift:177-183 | the cap-3 toggle; the wizard stays valid (step 1 or 2, at most 3 tags) |
| ProfileSetup.ProfileSetupScreen.NextStep | OnTheSpot/Features/Onboarding/ProfileSetupView.swift:79-97 | step 1 moves to 2 and saves nothing; step 2 sets loading and saves exactly the entered name (non-empty), bio, location and tags |
| ProfileSetup.ProfileSetupScreen.Back | OnTheSpot/Features/Onboarding/ProfileSetupView.swift:50-51 | step 2 returns to step 1, nothing else changes |
| ProfileSetup.ProfileSetupScreen.FinishAfterDelay | OnTheSpot/Features/Onboarding/ProfileSetupView.swift:99-102 | loading ends and the app is at home; step, name, bio, location and tags are unchanged |
| ProfileSetup.Onboard | OnTheSpot/Features/Onboarding/ProfileSetupView.swift:79-97 | a run through the wizard saves the typed profile and the tapped tags, at most 3 |
| UserProfile.RankLabel | OnTheSpot/Features/Profile/Views/UserProfileView.swift:84 | "Legend" iff points > 500; "Pro" iff 200 < points <= 500; "Rookie" otherwise |
| UserProfile.RankMatchesUserLevel | OnTheSpot/Features/Profile/Views/UserProfileView.swift:84 | same thresholds as the local level, label for label |
| UserProfile.OtherUserViewModel.constructor | OnTheSpot/Features/Profile/Views/UserProfileView.swift:79-83 | "Loading...", "...", "...", 0 points, loading |
| UserProfile.OtherUserViewModel.FetchUser | OnTheSpot/Features/Profile/Views/UserProfileView.swift:85-95 | typed fields or the defaults User/Rookie/Unknown/0; loading ends |
| UserProfile.ViewMissingUser | OnTheSpot/Core/Services/CloudDataManager.swift:234-236 | a missing user shows "Unknown User", "No Bio", "Unknown" and Rookie |
| ColorHex.Trimmed | OnTheSpot/Utils/Color+Extensions.swift:19 | a slice outside of which no letter or digit remains; it starts and ends with one; empty iff the string has none |
| ColorHex.ScanHex | OnTheSpot/Utils/Color+Extensions.swift:20-21 | a value iff a digit follows the optional 0x prefix; never above UInt64.max |
| ColorHex.Channels | OnTheSpot/Utils/Color+Extensions.swift:23-25 | three bytes whose base-256 value is the scanned number mod 2^24 |
| ColorHex.HexColor | OnTheSpot/Utils/Color+Extensions.swift:18-25 | nothing scanned gives (0, 0, 0); otherwise the channels of the scanned value |
| ColorHex.NoDigitsIsBlack | OnTheSpot/Utils/Color+Extensions.swift:20-21 | a string with no letter or digit is black |
| ColorHex.HexCodeRoundTrip | OnTheSpot/Utils/Color+Extensions.swift:18-25 | every "#RRGGBB" code decodes to its three bytes |
| ColorHex.Palette | OnTheSpot/Utils/Color+Extensions.swift:6-13 | "#1A1A1A" is (26, 26, 26), "#C2E078" is (194, 224, 120), "#8E8E93" is (142, 142, 147) |

## Left out

- Presentation is not modelled: layout, animation, navigation, the map and clustering, the onboarding and auth screens, the home and notification screens, and the add-spot sheet.
- PlaceSearchService, AuthManager and HomeViewModel are not part of this model.
- Floating point is left out.
  - `progressToNextLevel` keeps only its integer numerator.
  - The colour channels are not divided by 255.
  - Coordinates are carried as opaque reals.
- Listener registration, asynchrony, main-queue hops and the Combine subscription are not modelled. Each listener callback is a method that takes the delivered snapshot, or None for a failed one.
- Firestore's offline queue, caching and retries are not modelled. A write either lands (`online`) or does not.
- Store-assigned message document ids are not kept: a plan's messages are a list.
- JPEG compression and base64 coding are not modelled. A picked image is an optional opaque payload, and bubbles and the gallery do not decode images.
- `localizedCaseInsensitiveContains` is modelled with ASCII case folding. `CharacterSet.alphanumerics` is modelled as the ASCII letters and digits.
- `scanHexInt64` is modelled as: an optional "0x"/"0X" prefix followed by a digit, then hexadecimal digits, saturating at UInt64.max. Leading whitespace is not modelled; the trim leaves none.
- Seqs.SortBy: Swift's `sorted` is not stable. The model uses a stable insertion sort, and its contracts claim only ordering and permutation.
- DataManagerModel.DataManager.Binding, Cloud.CloudDataManager.Binding: the index is returned. Writing through the binding, and the aliasing between a detail screen's spot and the list, are not modelled. `LocationDetailScreen` holds its own copy of the spot.
- TapStatus (LocationDetail.LocationDetailScreen.TapStatus): the constant binding of the search results is modelled as `readOnly`. On the home list's writable binding the source's write also lands in `CloudDataManager.locations[index]`, and the model writes only the screen's copy.
- Location carries no Codable conformance in the source. The model reads a stored spot's id from its document id, which is the key `addLocation` writes under and the string the hidden-spot filter compares.
- Location.swift:22-25 declares `moderate` and `occupied` a second time, with the same values. Only one copy is modelled.
- `saveUserProfile` is not modelled as a store write.
  - Profile editing calls it with arguments its declaration lacks. The userRole, company, status and birthday fields, `userTags`, `profileImage` and `saveProfileImage` are not in DataManager.swift.
  - The editor's save and the wizard's `completeSetup` are modelled as the profile value they pass. The stored tags are a parameter of the editor's `onAppear`.
- EditProfile.EditProfileScreen.SaveChanges, ProfileSetup.ProfileSetupScreen.NextStep: the tags are passed as the selected set. The unspecified order of `Array(selectedTags)` is not modelled.
- `reportContent` and `fetchUserProfile`'s listener registration are not modelled. The latter's field defaulting is DataManagerModel.DataManager.ApplyRemoteProfile.
- `NotificationItem.timeAgo` (relative date formatting) is not modelled.
- Cloud.CloudDataManager.CreatePlan: the store's automatic document id is a parameter, required to be fresh.
- The home screen's add-spot closure does not match the sheet's declared callback. Adding a spot is modelled only through the two managers' `addLocation`.
