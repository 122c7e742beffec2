# Serenity client logic in Dafny

Serenity is a React Native Bible-verse app. Its screens cover several flows:
- a swipeable verse feed that pages through a verse API and lets the user like verses;
- category screens that point the feed at a search URL;
- a liked-verses list;
- login and sign-up, password reset, and profile editing;
- verse messaging between users and with support.

This project models the client-side logic of those screens and proves what
the code promises about it.

How the TypeScript becomes Dafny:
- **Screens and the feed are classes.** Each screen, and the feed itself, becomes
  a Dafny `class` whose fields are the component's `useState` variables.
- **Handlers are methods.** Each event handler is a method with a `modifies`
  clause naming exactly the fields the handler sets.
- **`await` splits a handler in two.** An asynchronous handler is cut at its
  first `await`:
  - `HandleX` / `FetchX` runs up to the request and returns the request it
    would issue, or `None` when a guard stops it;
  - `XSettled(outcome)` runs the rest, on a `Js.Outcome` that is either the
    response body or a failure carrying the server's error text.
- **Debounce timers become a slot.** Debounced searches keep a
  `pendingSearch` slot in place of a timer. `DebounceElapsed` is the timer
  firing.
- **Pure code stays pure.** Validators, label formatting, the
  children normaliser, truncation and render priority become functions and
  predicates.

JavaScript semantics the code relies on are written out in module `Js`:
- truthiness: `''`, `0`, `null` and `undefined` are falsy;
- `trim` (the ECMAScript whitespace set) and `s || fallback`;
- ASCII case mapping, `slice` with an ellipsis;
- decimal rendering of numbers in template strings;
- the recurring "array body, or its named field, or `[]`" normalisation of list responses.

Behaviours of the code that the model keeps as written:
- PasswordCodeScreen checks the password's length before trimming but sends
  the trimmed password. A password of five spaces and one letter passes and
  reaches the server as one character (`PasswordCode.PaddedPasswordPasses`).
- YourChoiceScreen starts its dropdown at `"Item 1"`. That is the label of
  the first item, not the value of any item
  (`YourChoiceScreen.InitialValueMatchesNoItem`).
- The Liked screen's row label and LineItem's label both end in two spaces,
  and they agree whenever chapter and verse are non-zero
  (`Liked.RowLabelMatchesLineItem`).
- The Liked screen's focus effect depends on the list's visibility. Going back
  from the module to the list therefore refetches the liked verses
  (`Liked.Screen.HandleBackPress`).
- HisWillScreen's `toggleFavorite` acts on a list that nothing fills or
  renders. It is modelled as the function it is.
- The profile screen's email input is disabled, but its handler is still
  there, lowercasing (`UserProfile.Screen.EditEmail`).

The API base URL comes from a build-time switch in constants/Config.ts, which
is not part of this model. It is a parameter `apiUrl` wherever it is used.

## Model

| member | source | states |
|---|---|---|
| Js.Normalise | app/Liked.tsx:69-75 | a falsy body changes nothing; an array body is taken as is; an object body gives its named field, or `[]` when that field is missing |
| Js.Trim | app/screens/PasswordCodeScreen.tsx:91 | `trim` removes exactly the leading and trailing whitespace runs: the result is a contiguous slice of the input, everything before and after it in the input is whitespace, it is empty iff the input is all whitespace, and otherwise it starts and ends with a non-space |
| Js.TrimIdempotent | app/screens/PasswordResetScreen.tsx:106 | trimming an already trimmed string changes nothing |
| Js.RequiredError | app/screens/SignUpScreen.tsx:64-75 | a required-field message is set exactly when the field is blank after trimming |
| Js.BlankJoin | app/screens/ConversationScreen.tsx:258 | `first + ' ' + last` is blank iff both parts are blank |
| Js.Lower | app/screens/SignUpScreen.tsx:114-117 | `toLowerCase` keeps the length and maps every character |
| Js.LowerIdempotent | app/screens/LoginScreen.tsx:120-123 | lowercasing a stored (already lowercased) email again changes nothing |
| Js.Ellipsize | app/screens/ConversationsScreen.tsx:187-195 | `slice(0, n) + '...'` only when longer than n: the first n characters are kept and the result is at most n + 3 long; shorter text is unchanged |
| Js.NatToString | app/LineItem.tsx:36 | a number in a template string renders as at least one decimal digit |
| Js.IntToStringRoundTrip | app/LineItem.tsx:36 | reading back the rendering of any integer gives that integer |
| Js.IntToStringShape | app/LineItem.tsx:36 | the rendering is digits, preceded by '-' exactly for a negative number |
| Js.IndexOf | app/screens/PasswordResetScreen.tsx:87-88 | the position of the first occurrence of a character, or the length when it is absent |
| VerseModule.TrailingDigits | app/VerseModule/VerseModule.tsx:93-94 | the length of the run of digits that ends a string; the character before it is not a digit |
| VerseModule.PageUrlRoundTrip | app/VerseModule/VerseModule.tsx:93-94 | the page URL `fetchUrl + ('&' if it contains '?' else '?') + 'page=' + page` can be split back into the feed URL and the page |
| VerseModule.PageUrlInjective | app/VerseModule/VerseModule.tsx:93-94 | two requests for the same page URL are for the same feed URL and page |
| VerseModule.ClampIndex | app/VerseModule/VerseModule.tsx:105-112 | the index after a replace is `active` clamped into `[0, len-1]`, or 0 for an empty page |
| VerseModule.FlipLikedAt | app/VerseModule/VerseModule.tsx:56-61 | the optimistic like flips `liked` at the index only (a missing `liked` reads as false); the length and every other verse are unchanged |
| VerseModule.SetLikedAt | app/VerseModule/VerseModule.tsx:72-80 | the rollback sets `liked` at the index back to a given value, and changes nothing else |
| VerseModule.RollbackRestores | app/VerseModule/VerseModule.tsx:56-80 | flipping and then rolling back restores the list exactly, even after a page was appended meanwhile |
| VerseModule.FlipTwice | app/VerseModule/VerseModule.tsx:56-61 | liking twice restores a verse whose `liked` was already a boolean |
| VerseModule.RenderFeed | app/VerseModule/VerseModule.tsx:168-185 | the render throws (it reads `url.length`) iff the `url` prop is absent; it shows the placeholder prompt iff the URL and the verse list are both empty; otherwise it shows the carousel of exactly the verse list |
| VerseModule.FirstRender | app/VerseModule/VerseModule.tsx:168 | before any effect has run the list is empty, so a newly mounted feed throws iff it has no `url` prop, shows the placeholder iff its `url` is empty, and otherwise an empty carousel |
| VerseModule.Feed.View | app/VerseModule/VerseModule.tsx:168-185 | a mounted feed never throws; it shows the placeholder iff its URL and verses are both empty, otherwise the carousel of its verses |
| VerseModule.Feed.constructor | app/VerseModule/VerseModule.tsx:39-43 | initial state: the given props, no verses, page 1, no pagination, not loading, index 0; its view is the first render of those props |
| VerseModule.Feed.FetchVerses | app/VerseModule/VerseModule.tsx:83-98 | an empty URL or a load in flight changes nothing and sends nothing; otherwise the page URL is requested and `loading` is set |
| VerseModule.Feed.FetchSettled | app/VerseModule/VerseModule.tsx:100-132 | only a response with both `verses` and `pagination` changes the list, the pagination and the page (to the requested one); append keeps every earlier verse and the index, replace takes the page and clamps `active`; `loading` is false afterwards either way, and an in-range index stays in range |
| VerseModule.Feed.OnUrl | app/VerseModule/VerseModule.tsx:136-149 | a non-empty URL resets the list, page, pagination and index and fetches page 1 in replace mode; an empty URL with non-empty `data` shows `data` from index 0 |
| VerseModule.Feed.OnChange | app/VerseModule/VerseModule.tsx:151-163 | the index is always set; the next page is fetched in append mode only when at most two verses are left, `pagination.next` is truthy, nothing is loading and the current page is below `pages` |
| VerseModule.Feed.ToggleLike | app/VerseModule/VerseModule.tsx:48-71 | an out-of-range index or a falsy id changes nothing; otherwise the state becomes `FlipLikedAt` at that index, and the like request remembers the previous value |
| VerseModule.Feed.ToggleLikeSettled | app/VerseModule/VerseModule.tsx:72-80 | a failed like writes the remembered value back at that index; a successful one changes nothing |
| VerseModule.LikeThenFail | app/VerseModule/VerseModule.tsx:48-131 | a like whose request fails while the next page arrives leaves the old verses exactly as they were, followed by the new page |
| ScreenComponent.NothingBecomesNull | app/sharedComponents/ScreenComponent.tsx:33-35 | null, undefined and boolean children become null |
| ScreenComponent.ScalarIsWrapped | app/sharedComponents/ScreenComponent.tsx:38-40 | a string or number becomes a single `Text` element holding it |
| ScreenComponent.ArrayIsMapped | app/sharedComponents/ScreenComponent.tsx:43-63 | an array maps entry by entry to an array of the same length: nothing becomes null, scalars become `Text` keyed by their index, elements with truthy children are cloned with their key or the index, and anything else (nested arrays too) is kept |
| ScreenComponent.ElementIsCloned | app/sharedComponents/ScreenComponent.tsx:66-78 | an element with truthy children is cloned with the same tag, key and props around its processed children; anything else is returned unchanged |
| ScreenComponent.ProcessedIsClean | app/sharedComponents/ScreenComponent.tsx:31-79 | after processing, no bare string, number, boolean or undefined is left outside a `Text`, apart from the cases the code leaves alone |
| ScreenComponent.ProcessedItemIsClean | app/sharedComponents/ScreenComponent.tsx:43-63 | the same for one array entry |
| ScreenComponent.ContentPreserved | app/sharedComponents/ScreenComponent.tsx:31-79 | processing never adds, drops or reorders the text shown |
| ScreenComponent.ItemContentPreserved | app/sharedComponents/ScreenComponent.tsx:43-63 | the same for one array entry |
| PasswordCode.CodeError | app/screens/PasswordCodeScreen.tsx:90-97 | `Code is required` exactly when the trimmed code is empty, else no message |
| PasswordCode.PasswordError | app/screens/PasswordCodeScreen.tsx:102-110 | required when blank after trimming; else too short when the untrimmed length is below 6; else no message |
| PasswordCode.ConfirmationError | app/screens/PasswordCodeScreen.tsx:112-120 | required when blank; else a mismatch when it differs from the password exactly; else no message |
| PasswordCode.PasswordsValidIff | app/screens/PasswordCodeScreen.tsx:99-123 | both fields pass iff the password is non-blank, at least 6 long, and equal to the confirmation |
| PasswordCode.PaddedPasswordPasses | app/screens/PasswordCodeScreen.tsx:99-157 | a password padded with spaces passes the length check and is sent as one character |
| PasswordCode.Screen.constructor | app/screens/PasswordCodeScreen.tsx:48-57 | empty fields and messages, nothing verified or in flight |
| PasswordCode.Screen.EditCode | app/screens/PasswordCodeScreen.tsx:185-188 | editing the code stores it and clears its error |
| PasswordCode.Screen.EditPassword | app/screens/PasswordCodeScreen.tsx:226-229 | editing the password stores it and clears its error |
| PasswordCode.Screen.EditConfirmation | app/screens/PasswordCodeScreen.tsx:247-250 | editing the confirmation stores it and clears its error |
| PasswordCode.Screen.ValidateCode | app/screens/PasswordCodeScreen.tsx:90-97 | returns true iff the trimmed code is non-empty, and leaves `CodeError` in `codeError` |
| PasswordCode.Screen.ValidatePassword | app/screens/PasswordCodeScreen.tsx:99-123 | both messages are recomputed independently, and the result is true iff both are empty |
| PasswordCode.Screen.HandleVerifyCode | app/screens/PasswordCodeScreen.tsx:125-135 | no request for a blank code; otherwise the trimmed code is sent with the route's email and `isVerifying` is set |
| PasswordCode.Screen.VerifySettled | app/screens/PasswordCodeScreen.tsx:136-143 | `codeVerified` becomes true only on success; a failure shows the server's message or the default; `isVerifying` is false afterwards |
| PasswordCode.Screen.HandleUpdatePassword | app/screens/PasswordCodeScreen.tsx:145-157 | the update is sent iff both password fields pass, carrying the trimmed code, password and confirmation |
| PasswordCode.Screen.UpdateSettled | app/screens/PasswordCodeScreen.tsx:158-167 | success navigates to the reset screen; failure shows a message under the password; `isUpdating` is false afterwards |
| PasswordReset.EmailShapeIsPattern | app/screens/PasswordResetScreen.tsx:87-91 | `^[^\s@]+@[^\s@]+\.[^\s@]+$` matches exactly the strings with no whitespace, exactly one '@' with something before it, and a '.' in the domain with a character on each side |
| PasswordReset.EmailError | app/screens/PasswordResetScreen.tsx:82-94 | blank gives `Email is required`; else a non-matching trimmed email gives `Please enter a valid email address`; else no message |
| PasswordReset.AcceptedEmailIsPattern | app/screens/PasswordResetScreen.tsx:82-107 | an accepted email is posted in a form that matches the pattern and is already trimmed |
| PasswordReset.Screen.constructor | app/screens/PasswordResetScreen.tsx:46-49 | empty email and message, not submitted, not submitting |
| PasswordReset.Screen.EditEmail | app/screens/PasswordResetScreen.tsx:148-151 | editing the email stores it and clears its error |
| PasswordReset.Screen.ValidateEmail | app/screens/PasswordResetScreen.tsx:82-94 | leaves `EmailError` in `emailError` and returns true iff it is empty |
| PasswordReset.Screen.HandleEmailSubmit | app/screens/PasswordResetScreen.tsx:96-107 | posts iff validation passes, and posts the trimmed email |
| PasswordReset.Screen.EmailSubmitSettled | app/screens/PasswordResetScreen.tsx:108-115 | `emailSubmitted` becomes true only on success; a failure sets the server's message or the default; `isSubmitting` is false afterwards |
| PasswordReset.Screen.HandleTryAgain | app/screens/PasswordResetScreen.tsx:117-121 | back to an empty, unsubmitted form with no message |
| PasswordReset.Screen.HandleInputCode | app/screens/PasswordResetScreen.tsx:123-125 | the code screen receives the trimmed email, with no whitespace at either end |
| SignUp.SignupDecision | app/screens/SignUpScreen.tsx:63-86 | blocked iff some field is blank; otherwise a mismatch alert when password and confirmation differ; `signup` is called iff all three are non-blank and equal, with the untrimmed values |
| SignUp.Screen.constructor | app/screens/SignUpScreen.tsx:30-36 | empty fields and messages, not loading |
| SignUp.Screen.EditEmail | app/screens/SignUpScreen.tsx:114-117 | the email is stored lowercased and its error cleared |
| SignUp.Screen.EditPassword | app/screens/SignUpScreen.tsx:134-137 | the password is stored and its error cleared |
| SignUp.Screen.EditConfirmation | app/screens/SignUpScreen.tsx:154-157 | the confirmation is stored and its error cleared |
| SignUp.Screen.HandleSignup | app/screens/SignUpScreen.tsx:56-86 | all three messages are reset, then each blank field sets its own required message independently; the step taken is `SignupDecision`, and `isLoading` is set only for a call |
| SignUp.Screen.SignupSettled | app/screens/SignUpScreen.tsx:86-93 | success navigates home, failure alerts; `isLoading` is false afterwards |
| Login.LoginDecision | app/screens/LoginScreen.tsx:53-69 | `login` is called iff both fields are non-blank, with the raw values |
| Login.Screen.constructor | app/screens/LoginScreen.tsx:26-30 | empty fields and messages, not loading |
| Login.Screen.EditEmail | app/screens/LoginScreen.tsx:120-123 | the email is stored lowercased and its error cleared |
| Login.Screen.EditPassword | app/screens/LoginScreen.tsx:140-143 | the password is stored and its error cleared |
| Login.Screen.HandleLogin | app/screens/LoginScreen.tsx:47-69 | both messages are cleared and then set independently for blank fields; the call is `LoginDecision`, and `isLoading` is set only for a call |
| Login.Screen.LoginSettled | app/screens/LoginScreen.tsx:69-73 | an alert is shown iff login returned false; `isLoading` is false afterwards |
| UserProfile.ProfilePayload | app/screens/UserProfileScreen.tsx:83-119 | a payload is built iff both names are non-blank and the passwords do not mismatch; it carries the names and the lowercased email, and `new_password` appears iff both password fields are non-blank, in which case it equals both |
| UserProfile.NoHalfPasswordChange | app/screens/UserProfileScreen.tsx:92-119 | when the update goes out and either password field was filled, both fields were equal |
| UserProfile.Screen.constructor | app/screens/UserProfileScreen.tsx:36-46 | empty fields and messages, the profile loading |
| UserProfile.Screen.FetchProfile | app/screens/UserProfileScreen.tsx:55-57 | the profile starts loading |
| UserProfile.Screen.ProfileSettled | app/screens/UserProfileScreen.tsx:58-74 | a response fills the three fields, with missing ones as ''; a failure alerts and keeps them; loading ends either way |
| UserProfile.Screen.EditFirstName | app/screens/UserProfileScreen.tsx:156-159 | the first name is stored and its error cleared |
| UserProfile.Screen.EditLastName | app/screens/UserProfileScreen.tsx:173-176 | the last name is stored and its error cleared |
| UserProfile.Screen.EditEmail | app/screens/UserProfileScreen.tsx:191 | the email is stored lowercased |
| UserProfile.Screen.EditOldPassword | app/screens/UserProfileScreen.tsx:198-204 | the first password field is stored and both password messages are cleared |
| UserProfile.Screen.EditNewPassword | app/screens/UserProfileScreen.tsx:205-211 | the second password field is stored and both password messages are cleared |
| UserProfile.Screen.UpdateProfile | app/screens/UserProfileScreen.tsx:76-121 | all four messages are recomputed from the fields (both password messages set together on a mismatch); the payload sent is `ProfilePayload`, and `isLoading` is set only when one is sent |
| UserProfile.Screen.UpdateSettled | app/screens/UserProfileScreen.tsx:125-134 | success clears both password fields and keeps the rest; failure keeps them and shows the server's message or the default |
| Messaging.SentIds | app/screens/ConversationScreen.tsx:224 | the ids of the messages drawn on the sent side are exactly those whose sender is the current user |
| Messaging.SidesByUser | app/screens/SupportScreen.tsx:160 | with no current user nothing is drawn as sent, and two messages from the same sender are always drawn on the same side |
| ConversationScreen.VerseLabelParts | app/screens/ConversationScreen.tsx:176 | the verse label starts with the book and a space and ends with ' - ' and the text |
| ConversationScreen.Dropdown | app/screens/ConversationScreen.tsx:175-178 | one dropdown item per verse, in order, holding the verse and its label |
| ConversationScreen.OtherUserName | app/screens/ConversationScreen.tsx:257-259 | 'Unknown User' without `other_user`; else the trimmed "first last" with missing parts as ''; else the username when that is blank |
| ConversationScreen.Screen.constructor | app/screens/ConversationScreen.tsx:84-93 | no conversation, messages or user, an empty query, nothing selected, loading |
| ConversationScreen.Screen.UserSettled | app/screens/ConversationScreen.tsx:104-112 | a truthy user id is stored; the conversation is requested only if the user request succeeded; a failure ends loading |
| ConversationScreen.Screen.ConversationSettled | app/screens/ConversationScreen.tsx:113-128 | a response sets the conversation and its messages (or `[]`); loading ends either way |
| ConversationScreen.Screen.HandleSearchChange | app/screens/ConversationScreen.tsx:143-157 | the query is always stored; at least 2 trimmed characters replace any pending search with one of the trimmed text; a shorter query clears the dropdown and keeps a pending search |
| ConversationScreen.Screen.DebounceElapsed | app/screens/ConversationScreen.tsx:151-153 | the pending search, if any, starts and the slot empties |
| ConversationScreen.Screen.SearchSettled | app/screens/ConversationScreen.tsx:159-185 | the dropdown becomes the normalised results with their labels; a falsy body keeps it; a failure empties it |
| ConversationScreen.Screen.HandleVerseSelect | app/screens/ConversationScreen.tsx:187-190 | the verse is selected and the query becomes its label |
| ConversationScreen.Screen.HandleSendVerse | app/screens/ConversationScreen.tsx:192-203 | sends iff a verse, a truthy user id and a conversation are all present, with the verse label as the body |
| ConversationScreen.Screen.SendVerseSettled | app/screens/ConversationScreen.tsx:204-220 | a truthy reply appends its `message`, or the reply itself, after the earlier messages and resets the query, selection and dropdown; anything else changes nothing |
| ConversationScreen.TypeTwiceThenElapse | app/screens/ConversationScreen.tsx:143-153 | typing twice before the timer fires searches only for the second query |
| ConversationScreen.ShortQueryKeepsPending | app/screens/ConversationScreen.tsx:143-156 | shortening the query does not cancel the search already scheduled for the longer one |
| Support.Screen.constructor | app/screens/SupportScreen.tsx:75-79 | no conversation, messages or user, empty input, loading |
| Support.Screen.FetchConversationData | app/screens/SupportScreen.tsx:84-86 | loading starts |
| Support.Screen.FetchSettled | app/screens/SupportScreen.tsx:87-110 | a response sets the user id, the conversation and its messages (or `[]`); a fetch starts again exactly when the loaded conversation's id changed, since `fetchConversationData` depends on it and the focus effect depends on `fetchConversationData`; otherwise loading ends |
| Support.FirstLoad | app/screens/SupportScreen.tsx:84-110 | the first load on a focused screen fetches twice: the first response starts a second fetch, a second response for the same conversation starts none and loading ends |
| Support.Screen.HandleInputChange | app/screens/SupportScreen.tsx:122-124 | the input is stored |
| Support.Screen.HandleSendMessage | app/screens/SupportScreen.tsx:126-136 | sends iff the trimmed input is non-empty and a conversation is loaded, with the trimmed input as the body; whenever it sends, the button is enabled |
| Support.Screen.SendMessageSettled | app/screens/SupportScreen.tsx:138-145 | only status 200 or 201 clears the input and refetches; otherwise the input is kept |
| NewConversation.ShownName | app/screens/NewConversationScreen.tsx:196-198 | "first last" when both names are present, else the email |
| NewConversation.EmailAlwaysShown | app/screens/NewConversationScreen.tsx:196-202 | the email is shown either as the subtitle or as the name, and a full name is separated by a space |
| NewConversation.Render | app/screens/NewConversationScreen.tsx:171-188 | spinner, then error, then the short-query prompt, then 'No users found', then the list, each iff the earlier ones do not apply |
| NewConversation.Screen.constructor | app/screens/NewConversationScreen.tsx:58-68 | the route's verse id, an empty query and list, no error, nothing loading or pending |
| NewConversation.Screen.SetSearchQuery | app/screens/NewConversationScreen.tsx:80-99 | every change cancels the pending search; at least 2 trimmed characters schedule one for the untrimmed query; otherwise the users are emptied and the error cleared |
| NewConversation.Screen.DebounceElapsed | app/screens/NewConversationScreen.tsx:101-105 | the pending search, if any, starts with `loading` set and the error cleared |
| NewConversation.Screen.SearchSettled | app/screens/NewConversationScreen.tsx:114-127 | the users become the normalised results; a failure sets 'Failed to search users' and empties them; loading ends either way |
| NewConversation.Screen.HandleUserSelect | app/screens/NewConversationScreen.tsx:129-135 | navigates with the user's id and the route's verse id |
| NewConversation.TypeAndSearch | app/screens/NewConversationScreen.tsx:80-188 | typing a query of at least two trimmed characters and letting its timer fire searches that query; the results area then shows the failure message after a failure, and after a response the users it lists, or 'No users found' when it lists none |
| Conversations.PreviewOf | app/screens/ConversationsScreen.tsx:162-197 | a string preview is cut at 40 characters plus '...'; an object shows its verse cut the same way and its time, each only if non-empty; anything else shows nothing |
| Conversations.PreviewBounded | app/screens/ConversationsScreen.tsx:187-195 | no preview text exceeds 43 characters, and a short string is shown unchanged |
| Conversations.Render | app/screens/ConversationsScreen.tsx:132-145 | loading, then error, then 'No conversations yet', then the list, each iff the earlier ones do not apply |
| Conversations.Screen.constructor | app/screens/ConversationsScreen.tsx:57-59 | no conversations, loading, no error |
| Conversations.Screen.FetchConversations | app/screens/ConversationsScreen.tsx:62-65 | a fetch sets `loading` and clears the error |
| Conversations.Screen.FetchSettled | app/screens/ConversationsScreen.tsx:73-86 | the list becomes the normalised body; a failure sets 'Failed to load conversations'; loading ends either way |
| Conversations.Screen.OnPress | app/screens/ConversationsScreen.tsx:148-155 | a tap navigates iff the id is truthy, passing that id |
| Conversations.Load | app/screens/ConversationsScreen.tsx:62-145 | after a load the screen shows the failure message on a failure; otherwise the conversations of the response (or the previous ones for a falsy body), or 'No conversations yet' when there are none; never the error of an earlier load |
| LineItem.BookInitial | app/LineItem.tsx:27 | the uppercased first character of the book, or '' for an empty book |
| LineItem.TruncatedText | app/LineItem.tsx:30 | longer than 30 gives the first 20 characters and '...'; otherwise unchanged; never more than 30 characters |
| LineItem.LabelDeterminesVerse | app/LineItem.tsx:36 | two labels for the same book are equal only for the same chapter and verse |
| Liked.RowLabelMatchesLineItem | app/Liked.tsx:172 | the row label equals LineItem's label when chapter and verse are non-zero; a zero chapter renders as empty |
| Liked.RowText | app/Liked.tsx:175-179 | text longer than 30 shows its first 30 characters and '...'; otherwise unchanged |
| Liked.FirstWithId | app/Liked.tsx:108 | the index of the first verse with that id, or -1 when none has it |
| Liked.Screen.constructor | app/Liked.tsx:50-55 | no verses, loading, the list shown and the module hidden, nothing selected |
| Liked.Screen.FetchLikedVerses | app/Liked.tsx:58-61 | a fetch sets `loading` and clears the error |
| Liked.Screen.OnFocus | app/Liked.tsx:84-90 | a focus fetches iff the list is visible |
| Liked.Screen.FetchSettled | app/Liked.tsx:62-82 | the list becomes the normalised body; a failure sets 'Failed to load liked verses'; loading ends either way |
| Liked.Screen.ShowModule | app/Liked.tsx:106-117 | selects the first verse with the id and swaps to the module; with no match nothing changes; the two visibilities stay opposite |
| Liked.Screen.HandleBackPress | app/Liked.tsx:119-129 | with the list shown it only navigates back; otherwise it shows the list, hides the module, clears the selection and refetches; the visibilities stay opposite |
| Liked.OpenSelected | app/Liked.tsx:186-191 | the module's feed shows exactly the selected verse, at index 0, without fetching |
| YourChoiceContent.CategoryPageUrl | app/sharedComponents/YourChoiceContent.tsx:28-30 | a category URL already has a query, so its first page is requested with `&page=1` |
| YourChoiceContent.Content.constructor | app/sharedComponents/YourChoiceContent.tsx:24-25 | visible, with an empty URL |
| YourChoiceContent.Content.UpdateUrl | app/sharedComponents/YourChoiceContent.tsx:28-30 | the URL becomes `API_URL + '/verses/search?category=' + category` |
| YourChoiceContent.Content.ToggleVerseComponent | app/sharedComponents/YourChoiceContent.tsx:32-34 | visibility flips |
| YourChoiceContent.Content.OnFocus | app/sharedComponents/YourChoiceContent.tsx:66 | dropdown focus flips visibility |
| YourChoiceContent.Content.OnBlur | app/sharedComponents/YourChoiceContent.tsx:67 | dropdown blur flips visibility |
| YourChoiceContent.Content.Feed | app/sharedComponents/YourChoiceContent.tsx:73-80 | the feed is rendered iff visible, with the current URL, no data and index 0 |
| YourChoiceContent.FocusThenBlur | app/sharedComponents/YourChoiceContent.tsx:66-67 | opening and closing the dropdown leaves visibility, URL and rendered feed as they were |
| YourChoiceContent.PickCategory | app/sharedComponents/YourChoiceContent.tsx:69-80 | choosing a category makes the feed request that category's first page in replace mode |
| HisWill.ToggleFavoriteAt | app/screens/HisWillScreen.tsx:45-51 | negates `favorited` at the index only, a missing value becoming true; the length and every other verse are unchanged, and an out-of-range index changes nothing |
| HisWill.ToggleTwice | app/screens/HisWillScreen.tsx:47-49 | toggling twice restores a verse whose `favorited` was a boolean |
| HisWill.ToggleTwiceMissing | app/screens/HisWillScreen.tsx:47-49 | toggling twice turns a missing `favorited` into false, not back into missing |
| HisWill.MountFeed | app/screens/HisWillScreen.tsx:52-69 | the feed requests the first page of `API_URL + '/verses/search?category=his_will'` |
| YourChoiceScreen.InitialValueMatchesNoItem | app/screens/YourChoiceScreen.tsx:215 | the initial value "Item 1" is the first item's label and no item's value |
| YourChoiceScreen.ToggleFavoriteAt | app/screens/YourChoiceScreen.tsx:226-232 | negates `favorited` at the index only; the length and every other verse are unchanged |
| YourChoiceScreen.ToggleTwice | app/screens/YourChoiceScreen.tsx:226-232 | toggling twice at the same index is the identity |
| YourChoiceScreen.Screen.constructor | app/screens/YourChoiceScreen.tsx:213-217 | the sample verses, value "Item 1", visible |
| YourChoiceScreen.Screen.ToggleFavorite | app/screens/YourChoiceScreen.tsx:226-232 | the list becomes `ToggleFavoriteAt` of the old list |
| YourChoiceScreen.Screen.ToggleVerseComponent | app/screens/YourChoiceScreen.tsx:234-236 | visibility flips, on dropdown focus and on blur |
| YourChoiceScreen.Screen.OnDropdownChange | app/screens/YourChoiceScreen.tsx:280-282 | the value becomes the chosen item's value |
| YourChoiceScreen.Screen.FeedAsWritten | app/screens/YourChoiceScreen.tsx:287 | the feed is rendered iff visible, with no data, index 0 and no `url` prop |
| YourChoiceScreen.FeedAsWrittenThrows | app/screens/YourChoiceScreen.tsx:287 | as written, the visible feed is mounted without a `url` prop, so its first render throws |
| YourChoiceScreen.Screen.Feed | app/screens/YourChoiceScreen.tsx:287 | corrected: the feed is rendered iff visible, with the empty URL |
| YourChoiceScreen.MountFeed | app/screens/YourChoiceScreen.tsx:287 | with the corrected `url=''` the feed first renders its placeholder, requests nothing once mounted and still shows the placeholder |

## Findings

| source | as written | input that shows it | evidently intended | confidence | as-written member | corrected member |
|---|---|---|---|---|---|---|
| app/screens/YourChoiceScreen.tsx:287 | the verse feed is rendered without its required `url` prop, and the feed reads `url.length` on render (app/VerseModule/VerseModule.tsx:168) and in its URL effect (line 137) | opening the screen while the feed is visible, which is its initial state: `url` is `undefined`, so the first render throws a TypeError | pass `url=''`, so the feed shows its placeholder, as the Liked screen does for its module | medium, not executed | YourChoiceScreen.FeedAsWrittenThrows | YourChoiceScreen.MountFeed |

## Left out

- HTTP (axios), AsyncStorage token reads, and haptics. Each request is the value a handler returns, and each response is an `Outcome` handed to the matching `...Settled` method. A rejected request carries only the server's error text (`error.response.data.error`, or `.message` on the profile screen).
- React scheduling: batched `setState`, stale closures and the race when the feed's URL changes mid-fetch. Each handler half is one atomic step. A fetch that settles after a URL change is not modelled.
- Timers: the debounce `setTimeout` is the `pendingSearch` slot, and the feed's carousel `scrollTo` with its `isInitialLoad` flag only scrolls the view. Effect cleanup on unmount is not modelled.
- app/context/AuthContext.tsx (storage and axios plumbing), app/_layout.tsx and app/Home.tsx (navigation and drawer wiring). These are not part of this model.
- constants/Config.ts: the build switch behind `API_URL`; the URL is the parameter `apiUrl`. Liked.tsx uses its own hard-coded base URL, which is likewise a request detail.
- Presentational components without logic: app/QuotePresenter.tsx, app/Random.tsx, components/PasswordInputs.tsx, components/BackButton.tsx, app/VerseModule/BackButton.tsx, app/VerseModule/LikesButton.tsx. app/screens/LikedScreen.tsx/LikedModule.tsx is entirely commented out.
- Styles, animations (the fade-ins on mount, and the fade-outs that run before the password-code and login screens navigate away: the navigation is taken as immediate), fonts, `Dimensions` layout and `toLocaleTimeString` time formatting.
- YourChoiceContent's `handleChevronPress`, which only opens the dropdown widget.
- YourChoiceScreen's fetch effect, whose result is never used, and its literal list of sample verses: the constructor takes the sample as a parameter.
- ScreenComponent.Node: a number child is an integer; a fractional number (which renders as its decimal text) and NaN (falsy, so not rendered) are not modelled.
- Support.Screen.FetchSettled: assumes the screen is still focused when the loaded conversation's id changes; a change while unfocused defers the second fetch to the next focus, which is not modelled.
- Js.Lower: models `toLowerCase` and `toUpperCase` on ASCII letters only; other characters are left unchanged.
- Js.Trim: strings are sequences of Unicode scalar values, not UTF-16 code units, so lengths and `slice` positions differ from JavaScript's for characters outside the Basic Multilingual Plane.
