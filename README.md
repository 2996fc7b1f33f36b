# Reading screen: source switching and reader settings

This project is a Dafny model of two pieces of logic in an Android e-book reader.
It also proves properties of that model.

**The reading screen's presenter (`ReadBookPresenter`).** The presenter holds the open book and its chapter list.
- A manual switch to another content source (`changeBookSource`) first cancels any switch still in flight. It then gives the candidate the current book's name and author.
- On success, a manual switch replaces the book and its chapters as one pair. It then updates source weights through a one-slot memory of the last chosen source (`SavedSource`):
  - the remembered source loses 450 when the same book is switched again within 60 000 ms;
  - the chosen source gains the selection increment;
  - the slot is overwritten.
- An automatic switch (`autoChangeSource`) adopts its result only when the chapter list is non-empty.
- `loadBook` picks a book through a fallback chain.
- `getDurChapter` clamps the reading position to the chapter list.
- `disableDurBookSource` tags the current source as disabled.

Module `Presenter` is in `read_book_presenter.dfy`. The presenter is a class whose methods update its fields. The weight bookkeeping is a pure function, `Bookkeeping`, over a `Ledger`: the source registry keyed by URL, plus the slot. Lemmas about `Bookkeeping` carry the weight and slot properties. The manual switch is asynchronous, so it is modelled in two steps:
- `ChangeBookSource` subscribes;
- `DeliverChangeSource` is the observer receiving the result.

A subscription that was disposed before its result arrives is therefore visible in the model.

**The reader settings store (`ReadBookControl`).** This class has one field per reader preference. The fields are loaded from a `SharedPreferences` store, with a default per key. Each setter assigns its field and writes the same value under the field's own key.

Module `ReaderSettings` is in `reader_settings.dfy`, and the store is modelled in module `Preferences` (`preferences.dfy`):
- `Load` is the pure reading of a store, and `ReadBookControl` is a class over a `map` store.
- The invariant `Synced` says the fields equal what a reload of the store would give. Every setter preserves it, and the constructor establishes it.
- The CPM (reading speed) clamps differ. The setter replaces any value outside [200, 2000] with 500. The loader replaces only a value above 2000, and replaces it with 200.

`Option` (module `Wrappers`, `wrappers.dfy`) stands for Java's nullable references.

## Model

| member | source | states |
|---|---|---|
| Presenter.DurChapter | app/src/main/java/com/jack/bookshelf/presenter/ReadBookPresenter.java:148-156 | none exactly for an empty list; the chapter at the reading position when it is inside the list, else the last chapter; any result is an element of the list |
| Presenter.ReadBookPresenter.GetDurChapter | app/src/main/java/com/jack/bookshelf/presenter/ReadBookPresenter.java:148-156 | on the presenter's own list: none exactly when the list is empty, otherwise an element of the list; needs a book only when the list is non-empty |
| Presenter.PickBookFailsIffNothingFound | app/src/main/java/com/jack/bookshelf/presenter/ReadBookPresenter.java:88-111 | the book choice fails if and only if no book is open, the intent key is empty or unknown, the note URL is empty or unknown, and there are no books at all |
| Presenter.PickBookOrder | app/src/main/java/com/jack/bookshelf/presenter/ReadBookPresenter.java:88-101 | with no open book, the intent key's book is chosen when the key is non-empty and known; otherwise the note URL's book when the URL is non-empty and known; otherwise the first of all books when there is one |
| Presenter.ReadBookPresenter.LoadBook | app/src/main/java/com/jack/bookshelf/presenter/ReadBookPresenter.java:86-129 | the book follows the fallback chain; chapters are fetched by the book's note URL only if a book was found and no chapters were held; no book, or a book without a name, closes the screen, otherwise loading starts; the switch subscriptions, the helper, sources and slot are unchanged |
| Presenter.ReadBookPresenter.DisableDurBookSource | app/src/main/java/com/jack/bookshelf/presenter/ReadBookPresenter.java:135-145 | the current book's source gains the disabled group and a toast names it; with no book or an unknown source nothing changes and there is no toast; book, chapters, switch subscriptions, helper and slot are untouched |
| Presenter.Disable | app/src/main/java/com/jack/bookshelf/presenter/ReadBookPresenter.java:137-140 | only the source at the tag gains the disabled group; all other sources and the set of URLs are unchanged |
| Presenter.DisableIdempotent | app/src/main/java/com/jack/bookshelf/presenter/ReadBookPresenter.java:137-140 | disabling a source twice is the same as disabling it once |
| Presenter.ReadBookPresenter.ChangeBookSource | app/src/main/java/com/jack/bookshelf/presenter/ReadBookPresenter.java:239-251 | a live previous switch is disposed; the request is the candidate with the current book's name and author; the new subscription takes the next unused number, which then advances by one, and is the only live one; book, chapters, helper, sources and slot are unchanged; `Valid` is kept |
| Presenter.ReadBookPresenter.DeliverChangeSource | app/src/main/java/com/jack/bookshelf/presenter/ReadBookPresenter.java:253-285 | a disposed or already delivered subscription changes nothing and tells the view nothing; on success book and chapters become the two halves of the result, the view gets the new book, and sources and slot become `Bookkeeping` of their old values; on failure nothing but the subscription changes and the view gets the message and null; the latest subscription, the numbering and the helper are never touched |
| Presenter.ReadBookPresenter.AutoChangeSource | app/src/main/java/com/jack/bookshelf/presenter/ReadBookPresenter.java:290-315 | the helper exists afterwards; a result with a non-empty chapter list replaces book and chapters together; an empty list or an error leaves both unchanged and the view gets null, after the error's toast; manual-switch subscriptions, sources and slot are unchanged |
| Presenter.ReadBookPresenter.constructor | app/src/main/java/com/jack/bookshelf/presenter/ReadBookPresenter.java:66-69 | starts with no book, no chapters, no subscription, numbering at 0 and no helper, over the given source registry and slot; `Valid` holds |
| Presenter.Bookkeeping | app/src/main/java/com/jack/bookshelf/presenter/ReadBookPresenter.java:261-278 | afterwards the slot's copy is exactly what the registry holds for its URL, and the slot carries the new book name and the time |
| Presenter.RegistryAfterBookkeeping | app/src/main/java/com/jack/bookshelf/presenter/ReadBookPresenter.java:261-278 | the chosen source, if known, ends as its record looked up before the write-back plus the increment; otherwise (the slot names another source, or the registry does not know the chosen URL) the slot's source ends as its slot copy, less 450 when penalised, and is inserted if missing; every other source is untouched |
| Presenter.SlotAfterBookkeeping | app/src/main/java/com/jack/bookshelf/presenter/ReadBookPresenter.java:263-275 | after a switch the slot holds the new book name, the time and the chosen source's record with the increment, or no source if the registry does not know the chosen URL |
| Presenter.PenaltyIff | app/src/main/java/com/jack/bookshelf/presenter/ReadBookPresenter.java:265-269 | while the slot's copy matches the registry, a source other than the chosen one loses exactly 450 if and only if it is the slot's source, the slot was saved less than 60 000 ms ago and the book name is the same; otherwise its record is unchanged |
| Presenter.UnchosenSourceKeepsWeight | app/src/main/java/com/jack/bookshelf/presenter/ReadBookPresenter.java:261-278 | over any sequence of switches, a source that is not in the slot and is never chosen keeps its whole record |
| Presenter.PenaltyWindowScenario | app/src/main/java/com/jack/bookshelf/presenter/ReadBookPresenter.java:261-278 | switching one book at 0 s, 30 s and 90 s penalises the first source at 30 s; at 90 s, exactly 60 s later, the second source is not penalised |
| Presenter.ReselectingSlotSourceLosesPenalty | app/src/main/java/com/jack/bookshelf/presenter/ReadBookPresenter.java:263-275 | choosing again, within the window and for the same book, the source held in the slot leaves it at its old weight plus the increment: the save of the chosen source, looked up before the penalty, comes last |
| Presenter.SwitchUndoesDisableOfSlotSource | app/src/main/java/com/jack/bookshelf/presenter/ReadBookPresenter.java:261-278 | a source disabled while it is in the slot loses the disabled group again at the next switch, because the slot's older copy is saved over it |
| Presenter.SupersededSwitchIsIgnored | app/src/main/java/com/jack/bookshelf/presenter/ReadBookPresenter.java:239-285 | a manual switch superseded by a newer one delivers nothing, even after the newer one has delivered and a third has started |
| Presenter.PickBook | app/src/main/java/com/jack/bookshelf/presenter/ReadBookPresenter.java:88-102 | an open book is kept; no book is found only when none is open, the intent key and the note URL find nothing, and there are no books at all |
| ReaderSettings.SetterCpm | app/src/main/java/com/jack/bookshelf/help/ReadBookControl.java:223-225 | the kept CPM lies in [200, 2000]; an argument in range is kept, any other becomes 500 |
| ReaderSettings.LoadedCpm | app/src/main/java/com/jack/bookshelf/help/ReadBookControl.java:85 | the loaded CPM is at most 2000; a stored value up to 2000 is kept, a larger one becomes 200 |
| ReaderSettings.LoadedCpmCanBeBelowMinimum | app/src/main/java/com/jack/bookshelf/help/ReadBookControl.java:85 | some stored CPM loads below 200, while every value the setter keeps loads back unchanged |
| ReaderSettings.Load | app/src/main/java/com/jack/bookshelf/help/ReadBookControl.java:75-104 | the loaded CPM is at most 2000, and 500 when none is stored |
| ReaderSettings.EmptyStoreGivesDefaults | app/src/main/java/com/jack/bookshelf/help/ReadBookControl.java:76-103 | an empty store loads every default: indent 2, textSize 20, canClickTurn and canKeyTurn true, readAloudCanKeyTurn false, CPM 500, speechRate 10, screenTimeOut 0, textConvert 0, no font, the margin width for the side paddings, and the rest |
| ReaderSettings.LoadByTypedReads | app/src/main/java/com/jack/bookshelf/help/ReadBookControl.java:76-103 | loading is one typed read per key with that key's default, and CPM is clamped above 2000 |
| ReaderSettings.ReloadAfterTextSize | app/src/main/java/com/jack/bookshelf/help/ReadBookControl.java:110-113 | reloading after the text-size write gives the old loaded settings with only textSize changed |
| ReaderSettings.ReloadAfterTextConvert | app/src/main/java/com/jack/bookshelf/help/ReadBookControl.java:119-122 | reloading after the write gives the old settings with only textConvert changed |
| ReaderSettings.ReloadAfterTextBold | app/src/main/java/com/jack/bookshelf/help/ReadBookControl.java:124-127 | reloading after the write gives the old settings with only textBold changed |
| ReaderSettings.ReloadAfterReadBookFont | app/src/main/java/com/jack/bookshelf/help/ReadBookControl.java:129-132 | reloading after writing a font path, or removing it with null, gives the old settings with only fontPath changed |
| ReaderSettings.ReloadAfterCanKeyReturn | app/src/main/java/com/jack/bookshelf/help/ReadBookControl.java:160-163 | reloading after the write gives the old settings with only canKeyReturn changed |
| ReaderSettings.ReloadAfterCanKeyTurn | app/src/main/java/com/jack/bookshelf/help/ReadBookControl.java:169-172 | reloading after the write gives the old settings with only canKeyTurn changed |
| ReaderSettings.ReloadAfterAloudCanKeyTurn | app/src/main/java/com/jack/bookshelf/help/ReadBookControl.java:178-181 | reloading after the write gives the old settings with only readAloudCanKeyTurn changed |
| ReaderSettings.ReloadAfterCanClickTurn | app/src/main/java/com/jack/bookshelf/help/ReadBookControl.java:187-190 | reloading after the write gives the old settings with only canClickTurn changed |
| ReaderSettings.ReloadAfterCpm | app/src/main/java/com/jack/bookshelf/help/ReadBookControl.java:223-227 | reloading after the setter's write gives the old settings with CPM set to the setter's kept value |
| ReaderSettings.ReloadAfterClickAllNext | app/src/main/java/com/jack/bookshelf/help/ReadBookControl.java:233-236 | reloading after the write gives the old settings with only clickAllNext changed |
| ReaderSettings.ReloadAfterSpeechRate | app/src/main/java/com/jack/bookshelf/help/ReadBookControl.java:242-245 | reloading after the write gives the old settings with only speechRate changed |
| ReaderSettings.ReloadAfterSpeechRateFollowSys | app/src/main/java/com/jack/bookshelf/help/ReadBookControl.java:251-254 | reloading after the write gives the old settings with only speechRateFollowSys changed |
| ReaderSettings.ReloadAfterLightNovelParagraph | app/src/main/java/com/jack/bookshelf/help/ReadBookControl.java:258-261 | reloading after the write gives the old settings with only lightNovelParagraph changed |
| ReaderSettings.ReloadAfterScreenTimeOut | app/src/main/java/com/jack/bookshelf/help/ReadBookControl.java:267-270 | reloading after the write gives the old settings with only screenTimeOut changed |
| ReaderSettings.ReloadAfterPaddingLeft | app/src/main/java/com/jack/bookshelf/help/ReadBookControl.java:276-279 | reloading after the write gives the old settings with only paddingLeft changed |
| ReaderSettings.ReloadAfterPaddingTop | app/src/main/java/com/jack/bookshelf/help/ReadBookControl.java:285-288 | reloading after the write gives the old settings with only paddingTop changed |
| ReaderSettings.ReloadAfterPaddingRight | app/src/main/java/com/jack/bookshelf/help/ReadBookControl.java:294-297 | reloading after the write gives the old settings with only paddingRight changed |
| ReaderSettings.ReloadAfterPaddingBottom | app/src/main/java/com/jack/bookshelf/help/ReadBookControl.java:303-306 | reloading after the write gives the old settings with only paddingBottom changed |
| ReaderSettings.ReloadAfterTipPaddingLeft | app/src/main/java/com/jack/bookshelf/help/ReadBookControl.java:312-315 | reloading after the write gives the old settings with only tipPaddingLeft changed |
| ReaderSettings.ReloadAfterCanSelectText | app/src/main/java/com/jack/bookshelf/help/ReadBookControl.java:321-324 | reloading after the write gives the old settings with only canSelectText changed |
| ReaderSettings.ReloadAfterTipPaddingTop | app/src/main/java/com/jack/bookshelf/help/ReadBookControl.java:330-333 | reloading after the write gives the old settings with only tipPaddingTop changed |
| ReaderSettings.ReloadAfterTipPaddingRight | app/src/main/java/com/jack/bookshelf/help/ReadBookControl.java:339-342 | reloading after the write gives the old settings with only tipPaddingRight changed |
| ReaderSettings.ReloadAfterTipPaddingBottom | app/src/main/java/com/jack/bookshelf/help/ReadBookControl.java:348-351 | reloading after the write gives the old settings with only tipPaddingBottom changed |
| ReaderSettings.ReloadAfterScreenDirection | app/src/main/java/com/jack/bookshelf/help/ReadBookControl.java:357-360 | reloading after the write gives the old settings with only screenDirection changed |
| ReaderSettings.ReloadAfterIndent | app/src/main/java/com/jack/bookshelf/help/ReadBookControl.java:362-365 | reloading after the write gives the old settings with only indent changed |
| ReaderSettings.ReloadAfterLight | app/src/main/java/com/jack/bookshelf/help/ReadBookControl.java:375-377 | the brightness key is not loaded, so writing it leaves the loaded settings unchanged |
| ReaderSettings.ReloadAfterLightFollowSys | app/src/main/java/com/jack/bookshelf/help/ReadBookControl.java:383-385 | the follow-system key is not loaded, so writing it leaves the loaded settings unchanged |
| Preferences.GetStringAfterPutString | app/src/main/java/com/jack/bookshelf/help/ReadBookControl.java:129-132 | reading a string back after writing it gives the written string; after writing null the key is gone and the caller's default is read |
| Preferences.PutString | app/src/main/java/com/jack/bookshelf/help/ReadBookControl.java:129-132 | a null string removes the key, any other is stored under it; every other key is left as it was |
| ReaderSettings.KeyNameInjective | app/src/main/java/com/jack/bookshelf/help/ReadBookControl.java:76-103 | the Java key strings of the settings are pairwise distinct |
| ReaderSettings.ReadBookControl.constructor | app/src/main/java/com/jack/bookshelf/help/ReadBookControl.java:65-73 | the text colour is black, the store is the given one and the fields are synced with it |
| ReaderSettings.ReadBookControl.UpdateReaderSettings | app/src/main/java/com/jack/bookshelf/help/ReadBookControl.java:75-104 | the store is unchanged and the fields become `Load` of the store |
| ReaderSettings.ReadBookControl.LoadFirstHalf | app/src/main/java/com/jack/bookshelf/help/ReadBookControl.java:76-89 | the text and page-turn fields become the typed reads of their keys with their defaults, CPM clamped above 2000 |
| ReaderSettings.ReadBookControl.LoadSecondHalf | app/src/main/java/com/jack/bookshelf/help/ReadBookControl.java:90-103 | the speech, screen and margin fields become the typed reads of their keys with their defaults |
| ReaderSettings.ReadBookControl.LoadTextSettings | app/src/main/java/com/jack/bookshelf/help/ReadBookControl.java:76-89 | lightNovelParagraph, indent, textSize, fontPath, textConvert and textBold are read with their defaults |
| ReaderSettings.ReadBookControl.LoadPageTurnSettings | app/src/main/java/com/jack/bookshelf/help/ReadBookControl.java:79-86 | the four key-turn flags, CPM (clamped) and clickAllNext are read with their defaults |
| ReaderSettings.ReadBookControl.LoadSpeechAndScreenSettings | app/src/main/java/com/jack/bookshelf/help/ReadBookControl.java:90-103 | speechRate, speechRateFollowSys, screenTimeOut, screenDirection and canSelectText are read with their defaults |
| ReaderSettings.ReadBookControl.LoadMargins | app/src/main/java/com/jack/bookshelf/help/ReadBookControl.java:93-100 | the eight paddings are read, the side ones defaulting to the margin width and the others to 0 |
| ReaderSettings.ReadBookControl.GetTextConvert | app/src/main/java/com/jack/bookshelf/help/ReadBookControl.java:138-140 | a stored -1 reads as 2, any other value as itself; the result is never -1 |
| ReaderSettings.ReadBookControl.GetCanKeyTurn | app/src/main/java/com/jack/bookshelf/help/ReadBookControl.java:146-154 | a key turns the page if and only if key turning is on and either read-aloud key turning is on or nothing is being read aloud |
| ReaderSettings.ReadBookControl.GetLight | app/src/main/java/com/jack/bookshelf/help/ReadBookControl.java:371-373 | the stored brightness when an integer is stored under "light", the system brightness when nothing is |
| ReaderSettings.ReadBookControl.GetLightFollowSys | app/src/main/java/com/jack/bookshelf/help/ReadBookControl.java:379-381 | the stored flag under "lightFollowSys", true when nothing is stored |
| ReaderSettings.ReadBookControl.SetTextSize | app/src/main/java/com/jack/bookshelf/help/ReadBookControl.java:110-113 | only textSize changes, the store gains the same value under "textSize", and the fields stay synced |
| ReaderSettings.ReadBookControl.SetTextConvert | app/src/main/java/com/jack/bookshelf/help/ReadBookControl.java:119-122 | only textConvert changes, stored under "textConvertInt"; synced is kept |
| ReaderSettings.ReadBookControl.SetTextBold | app/src/main/java/com/jack/bookshelf/help/ReadBookControl.java:124-127 | only textBold changes, stored under "textBold"; synced is kept |
| ReaderSettings.ReadBookControl.SetReadBookFont | app/src/main/java/com/jack/bookshelf/help/ReadBookControl.java:129-132 | only fontPath changes; the store holds it under "fontPath", and null removes the key; synced is kept |
| ReaderSettings.ReadBookControl.SetCanKeyReturn | app/src/main/java/com/jack/bookshelf/help/ReadBookControl.java:160-163 | only canKeyReturn changes, stored under its key; synced is kept |
| ReaderSettings.ReadBookControl.SetCanKeyTurn | app/src/main/java/com/jack/bookshelf/help/ReadBookControl.java:169-172 | only canKeyTurn changes, stored under its key; synced is kept |
| ReaderSettings.ReadBookControl.SetAloudCanKeyTurn | app/src/main/java/com/jack/bookshelf/help/ReadBookControl.java:178-181 | only readAloudCanKeyTurn changes, stored under "readAloudCanKeyTurn"; synced is kept |
| ReaderSettings.ReadBookControl.SetCanClickTurn | app/src/main/java/com/jack/bookshelf/help/ReadBookControl.java:187-190 | only canClickTurn changes, stored under its key; synced is kept |
| ReaderSettings.ReadBookControl.SetCPM | app/src/main/java/com/jack/bookshelf/help/ReadBookControl.java:223-227 | the field lies in [200, 2000] afterwards; only CPM changes, to the clamped value, which is also what is stored under "CPM"; synced is kept |
| ReaderSettings.ReadBookControl.SetClickAllNext | app/src/main/java/com/jack/bookshelf/help/ReadBookControl.java:233-236 | only clickAllNext changes, stored under its key; synced is kept |
| ReaderSettings.ReadBookControl.SetSpeechRate | app/src/main/java/com/jack/bookshelf/help/ReadBookControl.java:242-245 | only speechRate changes, stored under its key; synced is kept |
| ReaderSettings.ReadBookControl.SetSpeechRateFollowSys | app/src/main/java/com/jack/bookshelf/help/ReadBookControl.java:251-254 | only speechRateFollowSys changes, stored under its key; synced is kept |
| ReaderSettings.ReadBookControl.SetLightNovelParagraph | app/src/main/java/com/jack/bookshelf/help/ReadBookControl.java:258-261 | only lightNovelParagraph changes, stored under "light_novel_paragraph"; synced is kept |
| ReaderSettings.ReadBookControl.SetScreenTimeOut | app/src/main/java/com/jack/bookshelf/help/ReadBookControl.java:267-270 | only screenTimeOut changes, stored under its key; synced is kept |
| ReaderSettings.ReadBookControl.SetPaddingLeft | app/src/main/java/com/jack/bookshelf/help/ReadBookControl.java:276-279 | only paddingLeft changes, stored under its key; synced is kept |
| ReaderSettings.ReadBookControl.SetPaddingTop | app/src/main/java/com/jack/bookshelf/help/ReadBookControl.java:285-288 | only paddingTop changes, stored under its key; synced is kept |
| ReaderSettings.ReadBookControl.SetPaddingRight | app/src/main/java/com/jack/bookshelf/help/ReadBookControl.java:294-297 | only paddingRight changes, stored under its key; synced is kept |
| ReaderSettings.ReadBookControl.SetPaddingBottom | app/src/main/java/com/jack/bookshelf/help/ReadBookControl.java:303-306 | only paddingBottom changes, stored under its key; synced is kept |
| ReaderSettings.ReadBookControl.SetTipPaddingLeft | app/src/main/java/com/jack/bookshelf/help/ReadBookControl.java:312-315 | only tipPaddingLeft changes, stored under its key; synced is kept |
| ReaderSettings.ReadBookControl.SetCanSelectText | app/src/main/java/com/jack/bookshelf/help/ReadBookControl.java:321-324 | only canSelectText changes, stored under its key; synced is kept |
| ReaderSettings.ReadBookControl.SetTipPaddingTop | app/src/main/java/com/jack/bookshelf/help/ReadBookControl.java:330-333 | only tipPaddingTop changes, stored under its key; synced is kept |
| ReaderSettings.ReadBookControl.SetTipPaddingRight | app/src/main/java/com/jack/bookshelf/help/ReadBookControl.java:339-342 | only tipPaddingRight changes, stored under its key; synced is kept |
| ReaderSettings.ReadBookControl.SetTipPaddingBottom | app/src/main/java/com/jack/bookshelf/help/ReadBookControl.java:348-351 | only tipPaddingBottom changes, stored under its key; synced is kept |
| ReaderSettings.ReadBookControl.SetScreenDirection | app/src/main/java/com/jack/bookshelf/help/ReadBookControl.java:357-360 | only screenDirection changes, stored under its key; synced is kept |
| ReaderSettings.ReadBookControl.SetIndent | app/src/main/java/com/jack/bookshelf/help/ReadBookControl.java:362-365 | only indent changes, stored under "indent"; synced is kept |
| ReaderSettings.ReadBookControl.SetLight | app/src/main/java/com/jack/bookshelf/help/ReadBookControl.java:371-377 | no field changes; the store gains the brightness under "light", and `GetLight` reads it back whatever the system brightness is |
| ReaderSettings.ReadBookControl.SetLightFollowSys | app/src/main/java/com/jack/bookshelf/help/ReadBookControl.java:379-385 | no field changes; the store gains the flag under "lightFollowSys", and `GetLightFollowSys` reads it back |

## Left out

- Floating-point settings (`lineMultiplier`, `paragraphSize`, `textLetterSpacing`) and their setters and getters are not modelled, because the model has no floats.
- The system screen brightness (`getScreenBrightness`) is a call into the platform. It is the parameter `screenBrightness` of `GetLight`.
- The double-checked locking singleton (`getInstance`) is not modelled, because it is about concurrency. The class is built with its store and margin width as constructor parameters.
- `minCPM` and `maxCPM` are public, non-final fields in the source. The model treats them as the constants 200 and 2000.
- A stored value of the wrong type makes Android's typed getters throw. The model reads such a value as the default.
- The plain getters (`getTextSize`, `getCPM`, `getIndent` and the rest) only return a field. They are field reads in the model. What they return after each setter is stated in that setter's `ensures`.
- `textColor` is a `const` set to black by the constructor. No member can change it, which models the missing setter.
- Presenter: RxJava scheduling and the RxBus posts (`HAD_REMOVE_BOOK`, `HAD_ADD_BOOK`) are not modelled. A manual switch is modelled as a subscription followed by one delivery of its result.
- Presenter: `ChangeSourceHelp`'s search and chapter fetch, `BitIntentDataManager` and `BookshelfHelp` are inputs: a `SwitchResult` and a `Library`. The `Library` fixes what each lookup returns.
- Presenter: `increaseWeightBySelection` has no body in this model. Its effect is the constant `selectionBonus`.
- Presenter: `addGroup` has no body in this model. The disabled group is added as set insertion.
- Presenter: the view is abstract. `ViewCall` and `LoadOutcome` carry what it is told, and `upMenu` is not modelled.
- Presenter: the registry of `BookSourceManager` and `SavedSource.Instance` are fields of the presenter (`sources`, `savedSource`), and sources are identified by their URL.
- Presenter: `getBookSourceByUrl` is modelled as returning a detached copy, and `saveBookSource` as replacing or inserting the whole record under the copy's URL. Neither body is part of this model. If the lookup returned one shared object per source, a reselection within the window would keep the penalty, and a disable would survive the next switch.
- Bookkeeping: a save of an empty slot (a null source passed to `saveBookSource`) is taken to do nothing, so the slot is then filled and the chosen source gets its increment. `saveBookSource` is not part of this model; if it threw on null, the exception would be caught and the empty slot would never be filled.
- GetCanKeyTurn: takes `bool` for the boxed `Boolean isPlay`. A Java null throws at `!isPlay` when key turning is on and read-aloud key turning is off; that exception is not modelled.
- DeliverChangeSource: the bookkeeping always runs all four steps. In the Java, a throw inside the try at lines 261-278 is caught at line 276 and skips the remaining statements. Such throws are: `getBookInfoBean()` returning null (line 263), `getBookSourceByUrl` failing (line 264), a null book name in the slot while its source is set (line 267), and either `saveBookSource` failing (lines 269 and 275). The registry and slot can then stop part-way, for example with the penalised write-back saved but the slot not overwritten and no increment saved, or with the slot overwritten but the increment not saved. Those partial states are not modelled. A book name is a `string`, so a null name from `getName()` cannot be stored in the slot. Book and chapters are replaced before the try at lines 257-258, so no such throw undoes them.
- ChangeBookSource: requires an open book. With none, the Java disposes the live switch and then throws on the book's name; that exception is not modelled.
- GetDurChapter: requires an open book whenever chapters are held, as `Valid` guarantees. Otherwise the Java throws reading the position; that exception is not modelled.
- DisableDurBookSource: the toast carries only the source name. The localized "disabled" suffix is a resource string whose text is not part of this model.
- Setters with a boxed `Boolean` parameter (`setCanKeyReturn`, `setCanKeyTurn`, `setAloudCanKeyTurn`, `setCanClickTurn`, `setClickAllNext`, `setLightNovelParagraph`) take `bool`. A Java null assigns the field and then throws on unboxing before the store is written; that field/store mismatch is not modelled.
- Presenter: a negative reading position is excluded by the type `nat`. In the Java it makes `getDurChapter` throw.
- Presenter: `saveBook`, `saveProgress`, `openBookFromOther`, `addDownload`, `saveBookmark`, `getRealFilePath` and the other handlers are not modelled. They are persistence, file and content-resolver I/O.
