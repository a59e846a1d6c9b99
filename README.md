# Kotlin Android coursework apps — a Dafny model

This project models the decision logic in a set of small Android apps written in Kotlin
with Jetpack Compose.

- **Library** (`library.dfy`): a lending tracker.
  - Each student has a list of borrowed books. The list only grows and is kept unique by book id.
  - A manager owns the roster and a five-book catalogue.
  - After every borrow, the manager saves the whole roster to a store.
- **Task app** (`task_app.dfy`): the week-6 to-do app.
  - List and detail state holders are updated by REST calls. Each call's outcome is an input.
  - Also modelled: the due-date formatter, the card colour and check box, and which view each screen shows.
- **Forgot-password wizard** (`password_reset.dfy`): four screens that share a `UserData` accumulator.
  - The code screen has six one-character slots.
  - The slots, joined in order, gate the step to the reset screen.
- **Form validators**:
  - age classification (`age_check.dfy`);
  - email check (`email_check.dfy`);
  - the count-to-list generator `1..n` (`number_input.dfy`).
- **Phone login** (`phone_login.dfy`), from the week-5 app:
  - the national-to-`+84` rewrite;
  - the OTP guard;
  - the login/profile switch;
  - the profile card.
- **Onboarding pager** (`onboarding.dfy`):
  - the back, next, skip and get-started transitions;
  - the indicator dots;
  - leaving onboarding for home.
- **Permission wizard** (`permission_wizard.dfy`): three pages (location, notifications, camera).
  - The SDK level and the permissions already granted are inputs.
- **Compose demo** (`compose_demo.dfy`):
  - the counter with Kotlin `Int` wrap-around;
  - the demo-to-route table;
  - the dashboard, which shows its cards as `take(2)` and `takeLast(2)`, and its selection.

Shared pieces:
- `kotlin_text.dfy` models the Kotlin standard library behaviour that the apps rely on:
  - `Char.isWhitespace`, `trim` and `isBlank`;
  - `toIntOrNull` and `Int.toString`;
  - `split` on one character, `take` and `takeLast`;
  - ASCII `lowercase` and `equals(ignoreCase = true)`;
  - 32-bit `Int` wrap-around.
- `nav_stack.dfy` models the part of `NavController.navigate` the apps use: a back stack of
  route names, and `popUpTo(route) { inclusive }`.

Some state holders update their fields in place. They are classes whose methods state the
new state:
- `Book`, `Student`, `LibraryManager` and the store;
- `TaskListState` and `TaskDetailState`;
- `UserData`, the code slots (an `array`) and the wizard's back stack;
- the login flow, the pagers, the counter and the dashboard.

Pure decisions are functions with lemmas. Platform services appear as method arguments: an
HTTP outcome, the set of granted permissions, the SDK level, and Firebase callback results.

## Model

| member | source | states |
|---|---|---|
| KotlinText.Wrap | Demo/JetpackComposeDemo/app/src/main/java/com/example/jetpackcomposedemo/MainActivity.kt:236 | the result is an Int, equals the input when the input is an Int, and differs from it by a multiple of 2^32 |
| KotlinText.TrimStart | BaiTap_Tuan2/SourceCode/AgeCheckApp/app/src/main/java/com/example/agecheckapp/MainActivity.kt:123 | the result is a suffix whose dropped prefix is all whitespace and whose first character is not whitespace |
| KotlinText.TrimEnd | BaiTap_Tuan2/SourceCode/AgeCheckApp/app/src/main/java/com/example/agecheckapp/MainActivity.kt:123 | the result is a prefix whose dropped suffix is all whitespace and whose last character is not whitespace |
| KotlinText.TrimIgnoresPadding | BaiTap_Tuan2/SourceCode/AgeCheckApp/app/src/main/java/com/example/agecheckapp/MainActivity.kt:123 | whitespace added before and after a string does not change its trim |
| KotlinText.Lowercase | BaiTap_Tuan6/SourceCode/UthSmartTasks/app/src/main/java/com/example/uthsmarttasks/MainActivity.kt:206 | same length; every character is lower-cased in place |
| KotlinText.Take | Demo/JetpackComposeDemo/app/src/main/java/com/example/jetpackcomposedemo/MainActivity.kt:466 | the first min(n, size) elements |
| KotlinText.TakeLast | Demo/JetpackComposeDemo/app/src/main/java/com/example/jetpackcomposedemo/MainActivity.kt:471 | the last min(n, size) elements |
| KotlinText.SplitPiecesFree | BaiTap_Tuan6/SourceCode/UthSmartTasks/app/src/main/java/com/example/uthsmarttasks/MainActivity.kt:277 | no piece of a split contains the delimiter |
| KotlinText.SplitJoin | BaiTap_Tuan6/SourceCode/UthSmartTasks/app/src/main/java/com/example/uthsmarttasks/MainActivity.kt:277 | joining the pieces with the delimiter gives back the input, so split loses nothing |
| KotlinText.SplitNone | BaiTap_Tuan6/SourceCode/UthSmartTasks/app/src/main/java/com/example/uthsmarttasks/MainActivity.kt:277-278 | a string without the delimiter is a single piece |
| KotlinText.SplitAt | BaiTap_Tuan6/SourceCode/UthSmartTasks/app/src/main/java/com/example/uthsmarttasks/MainActivity.kt:277-280 | the text before the first delimiter is the first piece, and the rest is split on |
| KotlinText.Utf16Length | BaiTap_Tuan4/SourceCode/SmartTasks/app/src/main/java/com/example/smarttasks/MainActivity.kt:256 | `String.length`: between one and two units per character |
| KotlinText.Utf16LengthAppend | BaiTap_Tuan4/SourceCode/SmartTasks/app/src/main/java/com/example/smarttasks/MainActivity.kt:258 | the length of a concatenation is the sum of the lengths |
| KotlinText.BeyondBmpTwoUnits | BaiTap_Tuan4/SourceCode/SmartTasks/app/src/main/java/com/example/smarttasks/MainActivity.kt:256 | a single character beyond U+FFFF has `length` two, so a slot rejects it |
| KotlinText.Utf16LengthAtMostOne | BaiTap_Tuan4/SourceCode/SmartTasks/app/src/main/java/com/example/smarttasks/MainActivity.kt:256 | `length <= 1` holds exactly for the empty string and for a single character below U+10000 |
| KotlinText.SplitFirst | BaiTap_Tuan6/SourceCode/UthSmartTasks/app/src/main/java/com/example/uthsmarttasks/MainActivity.kt:277 | the first piece is the longest prefix without the delimiter |
| KotlinText.ToIntOrNull | BaiTap_Tuan2/SourceCode/AgeCheckApp/app/src/main/java/com/example/agecheckapp/MainActivity.kt:124 | a parsed value always lies in the Int range |
| KotlinText.ToIntOrNullTooLarge | BaiTap_Tuan2/SourceCode/AgeCheckApp/app/src/main/java/com/example/agecheckapp/MainActivity.kt:124 | a digit string whose value exceeds the largest Int does not parse |
| KotlinText.NatToStringValue | BaiTap_Tuan6/SourceCode/UthSmartTasks/app/src/main/java/com/example/uthsmarttasks/MainActivity.kt:137 | the printed digits of n read back as n |
| KotlinText.IntToStringRoundTrip | BaiTap_Tuan6/SourceCode/UthSmartTasks/app/src/main/java/com/example/uthsmarttasks/MainActivity.kt:137 | parsing the printed form of any Int gives that Int back |
| Library.Book.SetSelected | BaiTap_Tuan4/SourceCode/Library/app/src/main/java/com/example/library/MainActivity.kt:328 | the check box writes the book's selected flag in place |
| Library.Student.BorrowBooks | BaiTap_Tuan4/SourceCode/Library/app/src/main/java/com/example/library/MainActivity.kt:41-45 | the new list is BorrowAll of the old list and the request; the old list is a prefix; appended books are new objects with selected = false; the caller's books keep their flags; distinct ids stay distinct |
| Library.StudentStore.Save | BaiTap_Tuan4/SourceCode/Library/app/src/main/java/com/example/library/MainActivity.kt:49-52 | the saved roster replaces the stored one, and load returns it |
| Library.LibraryManager.constructor | BaiTap_Tuan4/SourceCode/Library/app/src/main/java/com/example/library/MainActivity.kt:75-91 | uses the loaded roster when it is non-empty, otherwise three seed students with no books; the catalogue is books 1..5, none selected |
| Library.LibraryManager.BorrowBooks | BaiTap_Tuan4/SourceCode/Library/app/src/main/java/com/example/library/MainActivity.kt:93-96 | only the given student changes; the roster is saved exactly once, as it stands after the borrow; the roster stays non-empty and without repeats |
| Library.LibraryManager.ConfirmBorrow | BaiTap_Tuan4/SourceCode/Library/app/src/main/java/com/example/library/MainActivity.kt:311-315 | borrows the ticked catalogue books, then saves once; the roster stays non-empty and without repeats |
| Library.SelectedBooks | BaiTap_Tuan4/SourceCode/Library/app/src/main/java/com/example/library/MainActivity.kt:312 | exactly the selected books: every ticked book and only ticked books |
| Library.SelectedPositions | BaiTap_Tuan4/SourceCode/Library/app/src/main/java/com/example/library/MainActivity.kt:312 | the ticked positions of the catalogue, each once, in increasing order |
| Library.SelectedBooksInOrder | BaiTap_Tuan4/SourceCode/Library/app/src/main/java/com/example/library/MainActivity.kt:312 | the result is the catalogue with the unticked books removed: the j-th ticked book is the book at the j-th ticked position, so nothing is reordered or repeated |
| Library.BorrowAllIsFresh | BaiTap_Tuan4/SourceCode/Library/app/src/main/java/com/example/library/MainActivity.kt:42-43 | a borrow appends exactly the reference list: requested entries whose id is neither held nor requested earlier, in first-occurrence order |
| Library.BorrowAllHasId | BaiTap_Tuan4/SourceCode/Library/app/src/main/java/com/example/library/MainActivity.kt:42-43 | an id is held afterwards iff it was held before or was requested |
| Library.BorrowAllCovers | BaiTap_Tuan4/SourceCode/Library/app/src/main/java/com/example/library/MainActivity.kt:41-45 | every requested id is held afterwards |
| Library.BorrowAllDistinct | BaiTap_Tuan4/SourceCode/Library/app/src/main/java/com/example/library/MainActivity.kt:42-43 | distinct ids stay distinct, even when the request repeats an id |
| Library.FreshFromRequest | BaiTap_Tuan4/SourceCode/Library/app/src/main/java/com/example/library/MainActivity.kt:43 | every added entry comes from the request and was not held; no more are added than were requested |
| Library.BorrowAllIdempotent | BaiTap_Tuan4/SourceCode/Library/app/src/main/java/com/example/library/MainActivity.kt:43 | borrowing the same request twice leaves the same list as borrowing it once |
| Library.BorrowHeldNoop | BaiTap_Tuan4/SourceCode/Library/app/src/main/java/com/example/library/MainActivity.kt:43 | a request whose ids are all held changes nothing |
| Library.BorrowAllGrowth | BaiTap_Tuan4/SourceCode/Library/app/src/main/java/com/example/library/MainActivity.kt:42-44 | the list grows by the number of distinct requested ids not already held, so by at most the request size |
| Library.CatalogueIds | BaiTap_Tuan4/SourceCode/Library/app/src/main/java/com/example/library/MainActivity.kt:85-91 | the catalogue ids are 1..5 and distinct |
| TaskApp.HttpErrorTextCode | BaiTap_Tuan6/SourceCode/UthSmartTasks/app/src/main/java/com/example/uthsmarttasks/MainActivity.kt:137 | the status code can be read back from the "Lỗi: <code>" message |
| TaskApp.ListScreenContent | BaiTap_Tuan6/SourceCode/UthSmartTasks/app/src/main/java/com/example/uthsmarttasks/MainActivity.kt:496-504 | spinner iff loading; error iff not loading and an error is set; empty view iff neither and no tasks; otherwise the cards |
| TaskApp.TaskListState.Fetch | BaiTap_Tuan6/SourceCode/UthSmartTasks/app/src/main/java/com/example/uthsmarttasks/MainActivity.kt:129-144 | ends with loading off. Success: tasks are replaced (empty without a body) and the error is cleared. HTTP error: "Lỗi: <code>". Exception: its message or "Lỗi kết nối". On both failures the tasks are kept and the screen shows the error |
| TaskApp.DetailScreenContent | BaiTap_Tuan6/SourceCode/UthSmartTasks/app/src/main/java/com/example/uthsmarttasks/MainActivity.kt:546-592 | the deleted view comes ahead of spinner, error and task, in that order; nothing is shown when there is no task |
| TaskApp.TaskDetailState.Fetch | BaiTap_Tuan6/SourceCode/UthSmartTasks/app/src/main/java/com/example/uthsmarttasks/MainActivity.kt:153-167 | a success keeps any earlier error and sets the task (none without a body); failures set the error and keep the task; loading ends off |
| TaskApp.TaskDetailState.Delete | BaiTap_Tuan6/SourceCode/UthSmartTasks/app/src/main/java/com/example/uthsmarttasks/MainActivity.kt:169-181 | success sets deleted and runs onSuccess once; an HTTP failure sets "Xóa thất bại"; an exception sets its possibly absent message; deleted is never cleared |
| TaskApp.CardColor | BaiTap_Tuan6/SourceCode/UthSmartTasks/app/src/main/java/com/example/uthsmarttasks/MainActivity.kt:206-211 | one of four colours; white iff there is no status or the lower-cased status is none of the three known ones |
| TaskApp.CheckedIffCompletedColor | BaiTap_Tuan6/SourceCode/UthSmartTasks/app/src/main/java/com/example/uthsmarttasks/MainActivity.kt:206-224 | the check box is ticked exactly on cards coloured as completed |
| TaskApp.DueText | BaiTap_Tuan6/SourceCode/UthSmartTasks/app/src/main/java/com/example/uthsmarttasks/MainActivity.kt:263 | no due date gives empty text; a due date is shown through formatDueDate (hh:mm DD/MM-YY for an ISO date-time, by FormatIso), so one without 'T' is shown unchanged |
| TaskApp.FormatNoT | BaiTap_Tuan6/SourceCode/UthSmartTasks/app/src/main/java/com/example/uthsmarttasks/MainActivity.kt:277-278 | input without 'T' is returned unchanged |
| TaskApp.FormatDueDateShape | BaiTap_Tuan6/SourceCode/UthSmartTasks/app/src/main/java/com/example/uthsmarttasks/MainActivity.kt:274-291 | for date + "T" + time + rest: the first five time characters, a space, then day/month-YY. The input is returned when the time is shorter than five characters or the date has fewer than three fields |
| TaskApp.FormatIso | BaiTap_Tuan6/SourceCode/UthSmartTasks/app/src/main/java/com/example/uthsmarttasks/MainActivity.kt:274-291 | an ISO 8601 extended date-time YYYY-MM-DDThh:mm… is shown as hh:mm DD/MM-YY |
| TaskApp.FormatExample | BaiTap_Tuan6/SourceCode/UthSmartTasks/app/src/main/java/com/example/uthsmarttasks/MainActivity.kt:275 | "2024-03-25T14:00:00" becomes "14:00 25/03-24" |
| NavStack.LastIndexOf | BaiTap_Tuan4/SourceCode/UthNavigation/app/src/main/java/com/example/uthnavigation/MainActivity.kt:59 | finds the topmost entry with the route, or -1 when there is none |
| NavStack.Navigate | BaiTap_Tuan4/SourceCode/UthNavigation/app/src/main/java/com/example/uthnavigation/MainActivity.kt:58-60 | the destination ends on top of a prefix of the old stack |
| NavStack.NavigatePopsInclusive | BaiTap_Tuan4/SourceCode/UthNavigation/app/src/main/java/com/example/uthnavigation/MainActivity.kt:58-60 | with popUpTo(route) inclusive and route on the stack once, what lay below route stays, route is gone, and the destination is on top |
| PasswordReset.UserData.constructor | BaiTap_Tuan4/SourceCode/SmartTasks/app/src/main/java/com/example/smarttasks/MainActivity.kt:47-52 | all four fields start empty |
| PasswordReset.ConfirmedFields | BaiTap_Tuan4/SourceCode/SmartTasks/app/src/main/java/com/example/smarttasks/MainActivity.kt:125-165 | each confirmed field is listed iff its value is non-empty, in the order email, code, password, none twice |
| PasswordReset.ConfirmedInfoNonEmpty | BaiTap_Tuan4/SourceCode/SmartTasks/app/src/main/java/com/example/smarttasks/MainActivity.kt:120 | the "confirmed info" block is shown iff it has at least one field to show |
| PasswordReset.FocusAfter | BaiTap_Tuan4/SourceCode/SmartTasks/app/src/main/java/com/example/smarttasks/MainActivity.kt:259-263 | focus moves forward after a character in slots 0..4, back after a clear in slots 1..5, and otherwise stays |
| PasswordReset.ConcatShortLength | BaiTap_Tuan4/SourceCode/SmartTasks/app/src/main/java/com/example/smarttasks/MainActivity.kt:258-281 | with a `length` of at most one per slot, the joined code's `length` is at most the slot count, and equals it iff every slot is filled |
| PasswordReset.VerificationScreen.constructor | BaiTap_Tuan4/SourceCode/SmartTasks/app/src/main/java/com/example/smarttasks/MainActivity.kt:193-194 | six new, empty slots |
| PasswordReset.VerificationScreen.EditSlot | BaiTap_Tuan4/SourceCode/SmartTasks/app/src/main/java/com/example/smarttasks/MainActivity.kt:255-264 | a value whose `length` (UTF-16 units) is more than one changes nothing, so neither do two characters nor one character beyond U+FFFF. Any other value, digit or not, replaces slot i alone, and the stored code becomes the slots joined in order, at most six characters |
| PasswordReset.TypeCode | BaiTap_Tuan4/SourceCode/SmartTasks/app/src/main/java/com/example/smarttasks/MainActivity.kt:252-264 | typing one value of `length` at most one into each slot in turn leaves exactly those values in the slots and their concatenation as the code, whose `length` is six iff no slot is empty |
| PasswordReset.SmartTasksApp.ForgetNext | BaiTap_Tuan4/SourceCode/SmartTasks/app/src/main/java/com/example/smarttasks/MainActivity.kt:171-173 | stores the email and opens the code screen |
| PasswordReset.SmartTasksApp.VerificationNext | BaiTap_Tuan4/SourceCode/SmartTasks/app/src/main/java/com/example/smarttasks/MainActivity.kt:280-284 | opens the reset screen iff the stored code's `length` (UTF-16 units) is exactly six; otherwise nothing happens |
| PasswordReset.SmartTasksApp.ResetNext | BaiTap_Tuan4/SourceCode/SmartTasks/app/src/main/java/com/example/smarttasks/MainActivity.kt:381-384 | stores both passwords as typed, without comparing them, and opens the confirm screen |
| PasswordReset.SubmitAfterPass | BaiTap_Tuan4/SourceCode/SmartTasks/app/src/main/java/com/example/smarttasks/MainActivity.kt:482-486 | submitting over the stack forgetPassword, verification, resetPassword, confirm leaves only forgetPassword |
| PasswordReset.SmartTasksApp.ConfirmSubmit | BaiTap_Tuan4/SourceCode/SmartTasks/app/src/main/java/com/example/smarttasks/MainActivity.kt:482-486 | returns to a single first screen: the earlier copy is popped from the back stack |
| PasswordReset.FullPass | BaiTap_Tuan4/SourceCode/SmartTasks/app/src/main/java/com/example/smarttasks/MainActivity.kt:171-486 | a pass with six filled slots reaches the confirm screen and comes back with only the first screen on the stack and every typed value stored |
| AgeCheck.AgeLabel | BaiTap_Tuan2/SourceCode/AgeCheckApp/app/src/main/java/com/example/agecheckapp/MainActivity.kt:130-136 | the four ranges >65, 6..65, 2..5 and <2 each pick their class and together cover every Int, so the final else is never reached |
| AgeCheck.AgeResult | BaiTap_Tuan2/SourceCode/AgeCheckApp/app/src/main/java/com/example/agecheckapp/MainActivity.kt:122-154 | the result is never empty, so it is always displayed |
| AgeCheck.DecideCases | BaiTap_Tuan2/SourceCode/AgeCheckApp/app/src/main/java/com/example/agecheckapp/MainActivity.kt:126-136 | on the trimmed age and its parse: each prompt appears exactly when its check fails first; "Tuổi không hợp lệ" never appears; every other message is the name, " là " and the age class |
| AgeCheck.ClassMessageDistinct | BaiTap_Tuan2/SourceCode/AgeCheckApp/app/src/main/java/com/example/agecheckapp/MainActivity.kt:130-136 | a classified message is the name, " là " and the class, and differs from the three prompts and from "Tuổi không hợp lệ" |
| AgeCheck.AgeResultCases | BaiTap_Tuan2/SourceCode/AgeCheckApp/app/src/main/java/com/example/agecheckapp/MainActivity.kt:122-136 | for the raw inputs: each prompt appears exactly when its check fails first on the name and the trimmed age, and "Tuổi không hợp lệ" never appears |
| AgeCheck.AgeIgnoresPadding | BaiTap_Tuan2/SourceCode/AgeCheckApp/app/src/main/java/com/example/agecheckapp/MainActivity.kt:123 | whitespace around the age does not change the message |
| AgeCheck.AgeOutOfRange | BaiTap_Tuan2/SourceCode/AgeCheckApp/app/src/main/java/com/example/agecheckapp/MainActivity.kt:124-129 | a digit string beyond the Int range gives "Tuổi phải là số hợp lệ." |
| EmailCheck.CheckEmail | BaiTap_Tuan2/SourceCode/EmailCheckApp/app/src/main/java/com/example/emailcheckapp/MainActivity.kt:81-94 | the message is never empty. It is the acceptance iff the input contains '@', "not valid" iff the input is blank, and "bad format" iff it is neither. Both rejections use the error colour; acceptance uses its own |
| EmailCheck.EmailForm.constructor | BaiTap_Tuan2/SourceCode/EmailCheckApp/app/src/main/java/com/example/emailcheckapp/MainActivity.kt:30-32 | starts with an empty field, no message and `Color.Red` (0xFFFF0000), which is not the rejection colour 0xFFFF3B30 |
| EmailCheck.EmailForm.Check | BaiTap_Tuan2/SourceCode/EmailCheckApp/app/src/main/java/com/example/emailcheckapp/MainActivity.kt:65-94 | stores the check's message and colour, and the message is then shown |
| NumberInput.UpTo | BaiTap_Tuan2/SourceCode/NumberInputApp/app/src/main/java/com/example/numberinputapp/MainActivity.kt:85 | n elements, the i-th being i + 1 |
| NumberInput.UpToContents | BaiTap_Tuan2/SourceCode/NumberInputApp/app/src/main/java/com/example/numberinputapp/MainActivity.kt:85 | strictly increasing, holding exactly the numbers 1..n |
| NumberInput.Generate | BaiTap_Tuan2/SourceCode/NumberInputApp/app/src/main/java/com/example/numberinputapp/MainActivity.kt:77-91 | no error iff the input parses to an Int of at least 1, and then the list is 1..n; otherwise the single error message. Never an error and a list together |
| NumberInput.NumberForm.OnValueChange | BaiTap_Tuan2/SourceCode/NumberInputApp/app/src/main/java/com/example/numberinputapp/MainActivity.kt:54-58 | any edit stores the text and clears both the error and the list |
| NumberInput.NumberForm.Create | BaiTap_Tuan2/SourceCode/NumberInputApp/app/src/main/java/com/example/numberinputapp/MainActivity.kt:77-91 | the state becomes the generator's outcome, so the error and the list are never both shown |
| NumberInput.SpacesRejected | BaiTap_Tuan2/SourceCode/NumberInputApp/app/src/main/java/com/example/numberinputapp/MainActivity.kt:79 | input with leading whitespace is rejected, because toInt does not trim |
| PhoneLogin.ToE164 | BaiTap_Tuan5/SourceCode/UthSmartTasks/app/src/main/java/com/example/uthsmarttasks/MainActivity.kt:130-133 | a leading "0" becomes "+84", so the number grows by two characters; anything else passes unchanged; the result never starts with "0" |
| PhoneLogin.ToE164Idempotent | BaiTap_Tuan5/SourceCode/UthSmartTasks/app/src/main/java/com/example/uthsmarttasks/MainActivity.kt:130-133 | rewriting twice equals rewriting once |
| PhoneLogin.LoginFlow.constructor | BaiTap_Tuan5/SourceCode/UthSmartTasks/app/src/main/java/com/example/uthsmarttasks/MainActivity.kt:73-83 | starts on the login screen with the SMS form hidden, no verification id, and empty user fields |
| PhoneLogin.LoginFlow.SendOtp | BaiTap_Tuan5/SourceCode/UthSmartTasks/app/src/main/java/com/example/uthsmarttasks/MainActivity.kt:130-168 | the number sent to verification is the rewritten one |
| PhoneLogin.LoginFlow.OnCodeSent | BaiTap_Tuan5/SourceCode/UthSmartTasks/app/src/main/java/com/example/uthsmarttasks/MainActivity.kt:156 | keeps the verification id |
| PhoneLogin.LoginFlow.VerifyOtp | BaiTap_Tuan5/SourceCode/UthSmartTasks/app/src/main/java/com/example/uthsmarttasks/MainActivity.kt:171-188 | builds a credential iff a verification id is stored; the screen does not change |
| PhoneLogin.LoginFlow.OnOtpSignIn | BaiTap_Tuan5/SourceCode/UthSmartTasks/app/src/main/java/com/example/uthsmarttasks/MainActivity.kt:176-184 | a success shows the profile with the fixed name, the phone as typed and no email; a failure changes nothing |
| PhoneLogin.LoginFlow.OnGoogleSignIn | BaiTap_Tuan5/SourceCode/UthSmartTasks/app/src/main/java/com/example/uthsmarttasks/MainActivity.kt:114-119 | a success shows the profile with the account's name and email, or the fallbacks; a failure changes nothing |
| PhoneLogin.LoginFlow.ShowSmsForm | BaiTap_Tuan5/SourceCode/UthSmartTasks/app/src/main/java/com/example/uthsmarttasks/MainActivity.kt:206 | the SMS form becomes visible |
| PhoneLogin.LoginFlow.Back | BaiTap_Tuan5/SourceCode/UthSmartTasks/app/src/main/java/com/example/uthsmarttasks/MainActivity.kt:223 | back on the login screen with the SMS form hidden |
| PhoneLogin.AvatarInitial | BaiTap_Tuan5/SourceCode/UthSmartTasks/app/src/main/java/com/example/uthsmarttasks/MainActivity.kt:408 | one character: the name's first, or "U" for an empty name |
| PhoneLogin.ProfileRows | BaiTap_Tuan5/SourceCode/UthSmartTasks/app/src/main/java/com/example/uthsmarttasks/MainActivity.kt:419-421 | the name row always comes first; the phone and email rows appear iff their values are non-empty |
| Onboarding.IndicatorFromCounts | BaiTap_Tuan4/SourceCode/UthNavigation/app/src/main/java/com/example/uthnavigation/MainActivity.kt:184-198 | from dot i on: one dot per remaining page, at most the current page highlighted, and a gap after all but the last dot |
| Onboarding.IndicatorShape | BaiTap_Tuan4/SourceCode/UthNavigation/app/src/main/java/com/example/uthnavigation/MainActivity.kt:184-198 | one dot per page, exactly one highlighted, and pages − 1 gaps |
| Onboarding.PrimaryLabel | BaiTap_Tuan4/SourceCode/UthNavigation/app/src/main/java/com/example/uthnavigation/MainActivity.kt:249 | "Get Started" iff on the last page, otherwise "Next" |
| Onboarding.OnboardingFlow.constructor | BaiTap_Tuan4/SourceCode/UthNavigation/app/src/main/java/com/example/uthnavigation/MainActivity.kt:50-55 | starts on page 0 with onboarding as the only back-stack entry |
| Onboarding.OnboardingFlow.Skip | BaiTap_Tuan4/SourceCode/UthNavigation/app/src/main/java/com/example/uthnavigation/MainActivity.kt:202 | goes to the last page |
| Onboarding.OnboardingFlow.Back | BaiTap_Tuan4/SourceCode/UthNavigation/app/src/main/java/com/example/uthnavigation/MainActivity.kt:221-224 | shown only after page 0; goes one page back |
| Onboarding.OnboardingFlow.Primary | BaiTap_Tuan4/SourceCode/UthNavigation/app/src/main/java/com/example/uthnavigation/MainActivity.kt:237-239 | on other pages: one page on. On the last page: no scroll; home goes on top and onboarding leaves the back stack |
| PermissionWizard.PermissionFor | BaiTap_Tuan6/SourceCode/App/app/src/main/java/com/example/app/PermissionScreen.kt:96-101 | page 0 asks for location; page 1 for notifications iff SDK ≥ 33, otherwise nothing; page 2 for the camera; other pages nothing |
| PermissionWizard.ScrollTarget | BaiTap_Tuan6/SourceCode/App/app/src/main/java/com/example/app/PermissionScreen.kt:104 | the pager settles on an existing page, the requested one when it exists |
| PermissionWizard.MainLabel | BaiTap_Tuan6/SourceCode/App/app/src/main/java/com/example/app/PermissionScreen.kt:114 | "Allow" iff on page 0, otherwise "Turn on" |
| PermissionWizard.PageDots | BaiTap_Tuan6/SourceCode/App/app/src/main/java/com/example/app/PermissionScreen.kt:151-158 | three dots; a dot is highlighted iff it is the current page's |
| PermissionWizard.Wizard.MainClick | BaiTap_Tuan6/SourceCode/App/app/src/main/java/com/example/app/PermissionScreen.kt:95-109 | with no permission to ask, or one already granted, moves one page on without a request. Otherwise exactly that permission is requested and the page stays. On the last page, with nothing to ask, it stays put |
| PermissionWizard.Wizard.OnPermissionResult | BaiTap_Tuan6/SourceCode/App/app/src/main/java/com/example/app/PermissionScreen.kt:44-55 | granted or not: moves one page on before the last page, and finishes once on it |
| PermissionWizard.Wizard.SkipForNow | BaiTap_Tuan6/SourceCode/App/app/src/main/java/com/example/app/PermissionScreen.kt:118 | one page on, never finishing |
| PermissionWizard.Wizard.Skip | BaiTap_Tuan6/SourceCode/App/app/src/main/java/com/example/app/PermissionScreen.kt:162 | finishes from any page |
| PermissionWizard.Wizard.AccountButton | BaiTap_Tuan6/SourceCode/App/app/src/main/java/com/example/app/PermissionScreen.kt:124-141 | shown on the last page only; finishes |
| ComposeDemo.RouteFor | Demo/JetpackComposeDemo/app/src/main/java/com/example/jetpackcomposedemo/MainActivity.kt:152-186 | card i opens routes[i]; that route is registered in the navigation graph and belongs to no other card |
| ComposeDemo.Counter.constructor | Demo/JetpackComposeDemo/app/src/main/java/com/example/jetpackcomposedemo/MainActivity.kt:219 | the counter starts at 0 |
| ComposeDemo.Counter.Increment | Demo/JetpackComposeDemo/app/src/main/java/com/example/jetpackcomposedemo/MainActivity.kt:236 | adds exactly 1 below the largest Int, and wraps to the smallest Int from it |
| ComposeDemo.Counter.Decrement | Demo/JetpackComposeDemo/app/src/main/java/com/example/jetpackcomposedemo/MainActivity.kt:239 | subtracts 1 only from a positive counter, so it does nothing at 0 and never makes the counter negative |
| ComposeDemo.DashboardCards | Demo/JetpackComposeDemo/app/src/main/java/com/example/jetpackcomposedemo/MainActivity.kt:466-473 | the top row take(2) followed by the bottom row takeLast(2) is the item list itself |
| ComposeDemo.CardsShowEachItemOnce | Demo/JetpackComposeDemo/app/src/main/java/com/example/jetpackcomposedemo/MainActivity.kt:442-473 | every dashboard item is on exactly one card, and nothing else is on a card |
| ComposeDemo.Dashboard.constructor | Demo/JetpackComposeDemo/app/src/main/java/com/example/jetpackcomposedemo/MainActivity.kt:451 | the first item starts selected |
| ComposeDemo.Dashboard.SelectCard | Demo/JetpackComposeDemo/app/src/main/java/com/example/jetpackcomposedemo/MainActivity.kt:498 | a click selects that card's item |

## Left out

- **Compose rendering**: layout, styling, dialogs, previews and animations are not modelled. Only the decisions are kept: labels, visibility conditions, which view wins, and where a button leads.
- **HTTP and JSON**: Retrofit, OkHttp and Gson are not modelled. Each call's outcome is an input: a success with an optional body, an HTTP status code, or an exception with an optional message.
- **Coroutines**: each fetch runs as one step, so the moment while a call is awaited is not modelled. The transient `isLoading = true` is only visible inside a step.
- **Library storage**: SharedPreferences and Gson serialisation are not modelled. The store keeps the last saved roster as plain values (names, ids and titles) and counts the saves.
- **Library selected flag**: the store does not record the `selected` flag. Borrowed copies always have it false.
- **Firebase and Google services**:
  - sign-in, the phone verification SDK, FCM tokens, notifications, toasts and the credential manager are not modelled;
  - the values their callbacks deliver are method arguments;
  - the FCM token and status texts are left out.
- **Test file**: `BaiTap_Tuan5/.../Test.kt` is not part of this model. It is a second sign-in demo with no logic of its own.
- **ProgressScreen**: it uses floating point and an endless delay loop, so it is left out.
- **Other demo screens**: the start, settings and profile screens are static and are left out.
- **Clock**: `SimpleDateFormat` and the wall-clock time display are left out.
- **Permission checks**: the runtime permission check is the `granted` argument.
- **Pager**: swiping the pager by hand is not modelled.
- **Onboarding page content**: images are left out.
- **Navigation internals**: the back stack keeps route names only. A `popUpTo` route that is not on the stack pops nothing.
- KotlinText: a Dafny `string` is a sequence of Unicode scalar values, while a JVM string is a sequence of UTF-16 code units. Only the verification-code screen counts `length` in UTF-16 units, with `Utf16Length`. Everywhere else one character of the model is one character of the input. This differs from the JVM only for characters beyond U+FFFF.
- PhoneLogin.AvatarInitial: for a name that starts with a character beyond U+FFFF, `firstOrNull()` on the JVM is a lone high surrogate. The model returns the whole character, because a lone surrogate is not a Dafny `char`.
- TaskApp.FormatDueDate: `substring(0, 5)` and `takeLast(2)` count UTF-16 units on the JVM, and the model counts characters. The two agree on the digits, '-', ':' and 'T' of an ISO date-time, which is what `FormatIso` covers.
- KotlinText.ToIntOrNull: accepts only the ASCII digits '0'..'9'. The JVM also accepts the other Unicode decimal digits, and those are left out.
- KotlinText.Lowercase: lower-cases ASCII letters only. Matching against "in progress", "pending" and "completed" is still exact, because the only non-ASCII character that lower-cases into ASCII is the Kelvin sign, which becomes 'k', and none of those words contains a 'k'.
- NumberInput.UpTo: builds the list for any n up to the largest Int. Running out of memory for a huge n is not modelled.
- TaskApp.TaskDetailState.Delete: the `error` field may become `None` after an exception. The source does this when the exception has no message. An exception with an empty message gives an empty error text.
- ComposeDemo.Counter.Decrement: the counter stays non-negative only while "+" has not been pressed 2^31 − 1 times. Past that, Kotlin's `Int` wraps the counter to the smallest Int, and "-" then no longer moves it.
