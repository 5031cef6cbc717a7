# mySwiftUITest: classification banner and comment box

This project models the two pieces of logic in mySwiftUITest, a two-tab SwiftUI demo.

**"I See Food" screen.** The screen holds four pieces of state: a label, a background colour, the picked image and a flag that shows the image picker.
- The camera button shows the picker.
- `classifyImage` runs an image classifier. It reads only the first observation of the result.
- If that identifier contains `"hotdog"`, the screen shows `"Hotdog!"` on green. Otherwise it shows the identifier itself on red.
- Every failure leaves the state as it was. The failures are: image conversion, model load, an empty or non-classification result, and a throwing `perform`.

**Profile screen.** The screen holds a text field, `newComment`, and a newest-first list, `comments`.
- "Post Comment" trims spaces and tabs from both ends of the field. If something is left, it puts the untrimmed text at the front of the list and clears the field. Otherwise it does nothing.

Modules:
- `Wrappers` (wrappers.dfy): the Option type.
- `Text` (text.dfy): case-sensitive substring containment (Swift's `contains`) and blank trimming (`trimmingCharacters(in: .whitespaces)`), with the lemma that trimming leaves nothing exactly when the string is blank throughout.
- `ISeeFood` (iseefood.dfy): the screen's state as a value (`DisplayState`) and the pure decision (`Verdict`, `Apply`), plus the class `ISeeFoodView`. The class has the four `@State` fields, and its methods update them in place.
- `Profile` (profile.dfy): `ProfileState`, the pure post step `AfterPost`, and traces of user actions. It also holds the class `ProfileView`, with the two `@State` fields, a `Type` method for the text field's binding and a `Post` method for the button.

The classifier is a black box here. A run is a `Pipeline` value: one of the three failures, or completion with some `Results`. A completed run returns either something other than classification observations or a ranked sequence of observations. Each observation carries only its identifier.

Two details of the post action:
- A blank post leaves the field as it is: the action assigns only inside its `if` (mySwiftUITest/ProfileView.swift:50-53).
- Whitespace is space and tab, so a newline is posted. The other separators in `.whitespaces` are listed under "## Left out".

## Model

| member | source | states |
|---|---|---|
| Text.Contains | mySwiftUITest/ISeeFoodView.swift:133 | `t` occurs somewhere in `s` as a contiguous, case-sensitive substring; an occurring string is never longer than `s`, and a prefix always occurs |
| Text.IsBlank | mySwiftUITest/ProfileView.swift:50 | the blanks `.whitespaces` is taken to hold are space and tab; newline and carriage return are not blanks |
| Text.LeadingBlanks | mySwiftUITest/ProfileView.swift:50 | the count of leading blanks is within the string, every counted character is a space or tab, and the next one is not |
| Text.TrailingBlanks | mySwiftUITest/ProfileView.swift:50 | the count of trailing blanks is within the string, every counted character is a space or tab, and the one before them is not |
| Text.Trim | mySwiftUITest/ProfileView.swift:50 | the trimmed text is a contiguous piece of the input; everything cut from either end is blank; a non-empty result neither starts nor ends with a blank |
| Text.TrimEmptyIffAllBlank | mySwiftUITest/ProfileView.swift:50 | trimming yields the empty string if and only if every character is a space or tab |
| Text.ContainsInfix | mySwiftUITest/ISeeFoodView.swift:133 | a string contains any text placed verbatim inside it, exact match or substring |
| ISeeFood.Initial | mySwiftUITest/ISeeFoodView.swift:15-24 | the initial state: label "Tap camera to select image", colour blue, no image, picker hidden |
| ISeeFood.Verdict | mySwiftUITest/ISeeFoodView.swift:133-139 | the colour is never blue; it is green exactly when the identifier contains "hotdog"; green comes with "Hotdog!", red with the identifier itself |
| ISeeFood.TopIdentifier | mySwiftUITest/ISeeFoodView.swift:125-129 | an identifier is produced exactly when the results are classification observations and there is at least one; it is the first observation's |
| ISeeFood.Delivered | mySwiftUITest/ISeeFoodView.swift:90-152 | a run delivers an identifier only when it completed with a non-empty list of classifications, and then delivers the top identifier |
| ISeeFood.Apply | mySwiftUITest/ISeeFoodView.swift:125-140 | nothing delivered leaves the state unchanged; a delivered identifier sets label and colour to its verdict; image and picker flag are always kept |
| ISeeFood.Classify | mySwiftUITest/ISeeFoodView.swift:90-152 | a whole run of `classifyImage` with its main-queue update: image and picker flag kept; nothing delivered leaves the state unchanged; a delivered identifier sets the banner to its verdict |
| ISeeFood.TapCamera | mySwiftUITest/ISeeFoodView.swift:58-60 | the picker flag becomes true, and setting it back gives the old state: nothing else changes |
| ISeeFood.Consistent | mySwiftUITest/ISeeFoodView.swift:131-140 | the banners the screen can show (invariant behind `ISeeFoodView.Valid`); the label of a consistent banner never contains "hotdog" |
| ISeeFood.WithoutLowerHNoHotdog | mySwiftUITest/ISeeFoodView.swift:133 | a string with no lower-case 'h' never matches the case-sensitive "hotdog" test |
| ISeeFood.InitialLabelHasNoHotdog | mySwiftUITest/ISeeFoodView.swift:21 | the initial prompt "Tap camera to select image" does not contain "hotdog" |
| ISeeFood.HotdogShownAsHotdog | mySwiftUITest/ISeeFoodView.swift:133-135 | an identifier containing "hotdog" sets the label to exactly "Hotdog!" and the colour to green, and nothing else |
| ISeeFood.OtherShownVerbatim | mySwiftUITest/ISeeFoodView.swift:136-138 | any other identifier becomes the label verbatim, with the colour red, and nothing else changes |
| ISeeFood.BannerReplacedAsAWhole | mySwiftUITest/ISeeFoodView.swift:131-140 | after any run the label/colour pair is either the old pair or the verdict pair; no run changes one without the other |
| ISeeFood.OnlyFirstObservationRead | mySwiftUITest/ISeeFoodView.swift:125-126 | two result sequences with the same first identifier produce the same state |
| ISeeFood.FailuresLeaveStateUnchanged | mySwiftUITest/ISeeFoodView.swift:91-150 | conversion failure, model-load failure, a throwing perform, and an empty or non-classification result each leave the whole state unchanged |
| ISeeFood.TapCameraOnlyShowsPicker | mySwiftUITest/ISeeFoodView.swift:58-60 | the camera button sets the picker flag and changes nothing else |
| ISeeFood.ConsistencyPreserved | mySwiftUITest/ISeeFoodView.swift:131-140 | the initial banner is consistent (prompt on blue, "Hotdog!" on green, or a non-hotdog label on red), and classification and the camera button keep it so |
| ISeeFood.MobileNetHotdogLabel | mySwiftUITest/ISeeFoodView.swift:117-135 | MobileNetV2's identifier "hotdog, hot dog, red hot" as top result gives "Hotdog!" on green |
| ISeeFood.PizzaShownVerbatim | mySwiftUITest/ISeeFoodView.swift:136-138 | a top result "pizza" gives the label "pizza" on red |
| ISeeFood.CaseSensitiveMatch | mySwiftUITest/ISeeFoodView.swift:133 | the match is case-sensitive: "Hotdog" is shown verbatim on red |
| ISeeFood.ISeeFoodView.constructor | mySwiftUITest/ISeeFoodView.swift:15-24 | the view starts in the initial state with a consistent banner |
| ISeeFood.ISeeFoodView.TapCameraButton | mySwiftUITest/ISeeFoodView.swift:58-60 | only the picker flag changes, and it becomes true |
| ISeeFood.ISeeFoodView.ClassifyImage | mySwiftUITest/ISeeFoodView.swift:90-152 | the fields become the pure model's state after the run; only label and colour may change, and the banner stays consistent |
| Profile.Initial | mySwiftUITest/ProfileView.swift:12-13 | the initial field is empty and the list holds no comments |
| Profile.AfterPost | mySwiftUITest/ProfileView.swift:49-53 | the state is unchanged if and only if the field is blank throughout; otherwise the untrimmed text heads the list, the field is cleared, the list grows by exactly one, and the old list is its tail |
| Profile.CanPost | mySwiftUITest/ProfileView.swift:50 | the button's guard holds exactly when the field is not made of spaces and tabs only (the empty field included) |
| Profile.Step | mySwiftUITest/ProfileView.swift:41-53 | one user action: typing sets the field and keeps the comments; tapping posts a non-blank field (prepended, field cleared) and leaves a blank one as it is; the old list is always the tail of the new one, at most one entry longer |
| Profile.PostShiftsOldEntries | mySwiftUITest/ProfileView.swift:51 | a successful post adds one entry, and every old entry moves exactly one index later |
| Profile.DuplicatesKept | mySwiftUITest/ProfileView.swift:50-51 | posting text already in the list still prepends it and raises its count by one |
| Profile.BlankFieldIsNoOp | mySwiftUITest/ProfileView.swift:50 | an empty field, spaces, or spaces and tabs post nothing and keep the field as it is |
| Profile.UntrimmedTextStored | mySwiftUITest/ProfileView.swift:50-52 | the stored comment keeps its surrounding blanks; a lone newline is posted |
| Profile.NewestFirst | mySwiftUITest/ProfileView.swift:51 | typing and posting "a", then "b", from the initial state gives ["b", "a"] and an empty field |
| Profile.CommentsNeverShrink | mySwiftUITest/ProfileView.swift:49-53 | after any sequence of typing and posting, the old list is the tail of the new one, and each action adds at most one entry |
| Profile.ProfileView.constructor | mySwiftUITest/ProfileView.swift:12-13 | the view starts with an empty field and no comments |
| Profile.ProfileView.Type | mySwiftUITest/ProfileView.swift:41 | typing replaces the field and leaves the comments alone |
| Profile.ProfileView.Post | mySwiftUITest/ProfileView.swift:49-53 | the fields become the pure post step's result: a blank field changes nothing; otherwise the old text is prepended and the field becomes "" |

## Left out

- Core ML and Vision inference are left out: model loading, `VNCoreMLRequest`, `VNImageRequestHandler` and the confidence values. A run is described only by how it ends.
- The background and main-queue hops (`DispatchQueue`) are left out. So is the race in which a slower, older classification overwrites a newer one. Each run is applied as one atomic update.
- Logging on the failure paths (`print`) is I/O and is left out.
- mySwiftUITest/ImagePicker.swift is not part of this model. It sets `inputImage`, calls the classifier and dismisses the sheet. As a result, no modelled action changes `inputImage` or hides the picker; the model only proves that classification leaves them alone.
- mySwiftUITest/mySwiftUITestApp.swift is not part of this model. It only sets the tab bar's look and puts the two views together.
- All SwiftUI layout and rendering is left out. This includes `ForEach(id: \.self)` and how it treats duplicate comments.
- Text.Trim, Text.IsBlank, Profile.CanPost, Profile.AfterPost: whitespace is only space and tab. Foundation's `.whitespaces` also holds other Unicode space separators, and those are not modelled. A field holding only such a separator (U+00A0, say) is a no-op in the app but is posted by the model.
- Text.Contains: matches by `char`, not by Swift `Character`. Grapheme clusters and canonical equivalence are not modelled.
