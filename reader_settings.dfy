/**
  The reader settings store `ReadBookControl`: one field per reader preference,
  loaded from a `SharedPreferences` store with a default per key, and one setter
  per field that updates the field and writes the same value back under the
  field's own key.

  `Settings` is the record of every modelled field and `Load` is what
  `updateReaderSettings` reads out of a store. The `ReloadAfter` lemmas show that
  reloading after a setter's write gives exactly the old loaded settings with
  that one field assigned; with them every setter keeps `Synced`, the invariant
  that the fields equal what a reload of the store would give.
 */
module ReaderSettings {
  import opened Wrappers
  import opened Preferences

  /** The preference keys `ReadBookControl` reads or writes; `KeyName` gives the name each is stored under. */
  datatype Key =
    | LightNovelParagraphKey
    | IndentKey
    | TextSizeKey
    | CanKeyReturnKey
    | CanClickTurnKey
    | CanKeyTurnKey
    | ReadAloudCanKeyTurnKey
    | CpmKey
    | ClickAllNextKey
    | FontPathKey
    | TextConvertIntKey
    | TextBoldKey
    | SpeechRateKey
    | SpeechRateFollowSysKey
    | ScreenTimeOutKey
    | PaddingLeftKey
    | PaddingTopKey
    | PaddingRightKey
    | PaddingBottomKey
    | TipPaddingLeftKey
    | TipPaddingTopKey
    | TipPaddingRightKey
    | TipPaddingBottomKey
    | ScreenDirectionKey
    | CanSelectTextKey
    | LightKey
    | LightFollowSysKey

  function KeyName(k: Key): string
  {
    match k
    case LightNovelParagraphKey => "light_novel_paragraph"
    case IndentKey => "indent"
    case TextSizeKey => "textSize"
    case CanKeyReturnKey => "canKeyReturn"
    case CanClickTurnKey => "canClickTurn"
    case CanKeyTurnKey => "canKeyTurn"
    case ReadAloudCanKeyTurnKey => "readAloudCanKeyTurn"
    case CpmKey => "CPM"
    case ClickAllNextKey => "clickAllNext"
    case FontPathKey => "fontPath"
    case TextConvertIntKey => "textConvertInt"
    case TextBoldKey => "textBold"
    case SpeechRateKey => "speechRate"
    case SpeechRateFollowSysKey => "speechRateFollowSys"
    case ScreenTimeOutKey => "screenTimeOut"
    case PaddingLeftKey => "paddingLeft"
    case PaddingTopKey => "paddingTop"
    case PaddingRightKey => "paddingRight"
    case PaddingBottomKey => "paddingBottom"
    case TipPaddingLeftKey => "tipPaddingLeft"
    case TipPaddingTopKey => "tipPaddingTop"
    case TipPaddingRightKey => "tipPaddingRight"
    case TipPaddingBottomKey => "tipPaddingBottom"
    case ScreenDirectionKey => "screenDirection"
    case CanSelectTextKey => "canSelectText"
    case LightKey => "light"
    case LightFollowSysKey => "lightFollowSys"
  }

  /** Distinct keys are stored under distinct names. */
  lemma KeyNameInjective(k1: Key, k2: Key)
    ensures KeyName(k1) == KeyName(k2) ==> k1 == k2
  {
  }

  /** `Color.BLACK` as a Java `int` (0xFF000000). */
  const Black: int := -16777216

  const MinCpm: int := 200
  const MaxCpm: int := 2000
  const DefaultCpm: int := 500

  /** The value `setCPM` keeps: anything outside [MinCpm, MaxCpm] becomes DefaultCpm. */
  function SetterCpm(cpm: int): (r: int)
    ensures MinCpm <= r <= MaxCpm
    ensures MinCpm <= cpm <= MaxCpm ==> r == cpm
    ensures cpm < MinCpm || MaxCpm < cpm ==> r == DefaultCpm
  {
    if cpm < MinCpm || cpm > MaxCpm then DefaultCpm else cpm
  }

  /**
    The value `updateReaderSettings` keeps for a stored CPM: only a value above
    MaxCpm is replaced, and by MinCpm rather than by the default; a value below
    MinCpm is kept as it is.
   */
  function LoadedCpm(stored: int): (r: int)
    ensures r <= MaxCpm
    ensures stored <= MaxCpm ==> r == stored
    ensures MaxCpm < stored ==> r == MinCpm
  {
    if stored > MaxCpm then MinCpm else stored
  }

  /** The loader's clamp is weaker than the setter's: a loaded CPM can lie below MinCpm. */
  lemma LoadedCpmCanBeBelowMinimum()
    ensures exists stored :: LoadedCpm(stored) < MinCpm
    ensures forall cpm :: LoadedCpm(SetterCpm(cpm)) == SetterCpm(cpm)
  {
    assert LoadedCpm(MinCpm - 1) < MinCpm;
  }

  /** Every field `updateReaderSettings` assigns, except the three `float` ones. */
  datatype Settings = Settings(
    lightNovelParagraph: bool,
    indent: int,
    textSize: int,
    canKeyReturn: bool,
    canClickTurn: bool,
    canKeyTurn: bool,
    readAloudCanKeyTurn: bool,
    cpm: int,
    clickAllNext: bool,
    fontPath: Option<string>,
    textConvert: int,
    textBold: bool,
    speechRate: int,
    speechRateFollowSys: bool,
    screenTimeOut: int,
    paddingLeft: int,
    paddingTop: int,
    paddingRight: int,
    paddingBottom: int,
    tipPaddingLeft: int,
    tipPaddingTop: int,
    tipPaddingRight: int,
    tipPaddingBottom: int,
    screenDirection: int,
    canSelectText: bool)

  /** What a store holds under each key `updateReaderSettings` reads. */
  datatype Stored = Stored(
    lightNovelParagraph: Option<PrefValue>,
    indent: Option<PrefValue>,
    textSize: Option<PrefValue>,
    canKeyReturn: Option<PrefValue>,
    canClickTurn: Option<PrefValue>,
    canKeyTurn: Option<PrefValue>,
    readAloudCanKeyTurn: Option<PrefValue>,
    cpm: Option<PrefValue>,
    clickAllNext: Option<PrefValue>,
    fontPath: Option<PrefValue>,
    textConvert: Option<PrefValue>,
    textBold: Option<PrefValue>,
    speechRate: Option<PrefValue>,
    speechRateFollowSys: Option<PrefValue>,
    screenTimeOut: Option<PrefValue>,
    paddingLeft: Option<PrefValue>,
    paddingTop: Option<PrefValue>,
    paddingRight: Option<PrefValue>,
    paddingBottom: Option<PrefValue>,
    tipPaddingLeft: Option<PrefValue>,
    tipPaddingTop: Option<PrefValue>,
    tipPaddingRight: Option<PrefValue>,
    tipPaddingBottom: Option<PrefValue>,
    screenDirection: Option<PrefValue>,
    canSelectText: Option<PrefValue>)

  function Snapshot(p: Store<Key>): Stored
  {
    Stored(
      lightNovelParagraph := Lookup(p, LightNovelParagraphKey),
      indent := Lookup(p, IndentKey),
      textSize := Lookup(p, TextSizeKey),
      canKeyReturn := Lookup(p, CanKeyReturnKey),
      canClickTurn := Lookup(p, CanClickTurnKey),
      canKeyTurn := Lookup(p, CanKeyTurnKey),
      readAloudCanKeyTurn := Lookup(p, ReadAloudCanKeyTurnKey),
      cpm := Lookup(p, CpmKey),
      clickAllNext := Lookup(p, ClickAllNextKey),
      fontPath := Lookup(p, FontPathKey),
      textConvert := Lookup(p, TextConvertIntKey),
      textBold := Lookup(p, TextBoldKey),
      speechRate := Lookup(p, SpeechRateKey),
      speechRateFollowSys := Lookup(p, SpeechRateFollowSysKey),
      screenTimeOut := Lookup(p, ScreenTimeOutKey),
      paddingLeft := Lookup(p, PaddingLeftKey),
      paddingTop := Lookup(p, PaddingTopKey),
      paddingRight := Lookup(p, PaddingRightKey),
      paddingBottom := Lookup(p, PaddingBottomKey),
      tipPaddingLeft := Lookup(p, TipPaddingLeftKey),
      tipPaddingTop := Lookup(p, TipPaddingTopKey),
      tipPaddingRight := Lookup(p, TipPaddingRightKey),
      tipPaddingBottom := Lookup(p, TipPaddingBottomKey),
      screenDirection := Lookup(p, ScreenDirectionKey),
      canSelectText := Lookup(p, CanSelectTextKey))
  }

  /** Each stored value read with its field's type and default, CPM through `LoadedCpm`. */
  function Decode(r: Stored, marginDefault: int): Settings
  {
    Settings(
      lightNovelParagraph := BoolOr(r.lightNovelParagraph, false),
      indent := IntOr(r.indent, 2),
      textSize := IntOr(r.textSize, 20),
      canKeyReturn := BoolOr(r.canKeyReturn, false),
      canClickTurn := BoolOr(r.canClickTurn, true),
      canKeyTurn := BoolOr(r.canKeyTurn, true),
      readAloudCanKeyTurn := BoolOr(r.readAloudCanKeyTurn, false),
      cpm := LoadedCpm(IntOr(r.cpm, DefaultCpm)),
      clickAllNext := BoolOr(r.clickAllNext, false),
      fontPath := StringOr(r.fontPath, None),
      textConvert := IntOr(r.textConvert, 0),
      textBold := BoolOr(r.textBold, false),
      speechRate := IntOr(r.speechRate, 10),
      speechRateFollowSys := BoolOr(r.speechRateFollowSys, true),
      screenTimeOut := IntOr(r.screenTimeOut, 0),
      paddingLeft := IntOr(r.paddingLeft, marginDefault),
      paddingTop := IntOr(r.paddingTop, 0),
      paddingRight := IntOr(r.paddingRight, marginDefault),
      paddingBottom := IntOr(r.paddingBottom, 0),
      tipPaddingLeft := IntOr(r.tipPaddingLeft, marginDefault),
      tipPaddingTop := IntOr(r.tipPaddingTop, 0),
      tipPaddingRight := IntOr(r.tipPaddingRight, marginDefault),
      tipPaddingBottom := IntOr(r.tipPaddingBottom, 0),
      screenDirection := IntOr(r.screenDirection, 0),
      canSelectText := BoolOr(r.canSelectText, false))
  }

  /**
    The settings `updateReaderSettings` reads out of store `p`, each under its
    own key with its own default; `marginDefault` is the default margin width
    of the page renderer.
   */
  function Load(p: Store<Key>, marginDefault: int): (s: Settings)
    ensures s.cpm <= MaxCpm
    ensures CpmKey !in p ==> s.cpm == DefaultCpm
  {
    Decode(Snapshot(p), marginDefault)
  }

  /** An empty store yields every default. */
  lemma EmptyStoreGivesDefaults(marginDefault: int)
    ensures Load(map[], marginDefault) == Settings(
      lightNovelParagraph := false, indent := 2, textSize := 20,
      canKeyReturn := false, canClickTurn := true, canKeyTurn := true,
      readAloudCanKeyTurn := false, cpm := 500, clickAllNext := false,
      fontPath := None, textConvert := 0, textBold := false, speechRate := 10,
      speechRateFollowSys := true, screenTimeOut := 0,
      paddingLeft := marginDefault, paddingTop := 0,
      paddingRight := marginDefault, paddingBottom := 0,
      tipPaddingLeft := marginDefault, tipPaddingTop := 0,
      tipPaddingRight := marginDefault, tipPaddingBottom := 0,
      screenDirection := 0, canSelectText := false)
  {
  }

  /**
    Reloading after a setter's write gives the previously loaded settings with
    the setter's field assigned: the setter's key is read back as the value the
    setter kept, and no other loaded key is touched. One lemma per setter.
   */
  lemma ReloadAfterTextSize(p: Store<Key>, v: int, marginDefault: int)
    ensures Load(p[TextSizeKey := IntPref(v)], marginDefault) == Load(p, marginDefault).(textSize := v)
  {
    assert Snapshot(p[TextSizeKey := IntPref(v)]) == Snapshot(p).(textSize := Some(IntPref(v)));
  }

  lemma ReloadAfterTextConvert(p: Store<Key>, v: int, marginDefault: int)
    ensures Load(p[TextConvertIntKey := IntPref(v)], marginDefault) == Load(p, marginDefault).(textConvert := v)
  {
    assert Snapshot(p[TextConvertIntKey := IntPref(v)]) == Snapshot(p).(textConvert := Some(IntPref(v)));
  }

  lemma ReloadAfterTextBold(p: Store<Key>, v: bool, marginDefault: int)
    ensures Load(p[TextBoldKey := BoolPref(v)], marginDefault) == Load(p, marginDefault).(textBold := v)
  {
    assert Snapshot(p[TextBoldKey := BoolPref(v)]) == Snapshot(p).(textBold := Some(BoolPref(v)));
  }

  lemma ReloadAfterReadBookFont(p: Store<Key>, v: Option<string>, marginDefault: int)
    ensures Load(PutString(p, FontPathKey, v), marginDefault) == Load(p, marginDefault).(fontPath := v)
  {
    match v
    case None =>
      assert Snapshot(p - {FontPathKey}) == Snapshot(p).(fontPath := None);
    case Some(path) =>
      assert Snapshot(p[FontPathKey := StrPref(path)]) == Snapshot(p).(fontPath := Some(StrPref(path)));
  }

  lemma ReloadAfterCanKeyReturn(p: Store<Key>, v: bool, marginDefault: int)
    ensures Load(p[CanKeyReturnKey := BoolPref(v)], marginDefault) == Load(p, marginDefault).(canKeyReturn := v)
  {
    assert Snapshot(p[CanKeyReturnKey := BoolPref(v)]) == Snapshot(p).(canKeyReturn := Some(BoolPref(v)));
  }

  lemma ReloadAfterCanKeyTurn(p: Store<Key>, v: bool, marginDefault: int)
    ensures Load(p[CanKeyTurnKey := BoolPref(v)], marginDefault) == Load(p, marginDefault).(canKeyTurn := v)
  {
    assert Snapshot(p[CanKeyTurnKey := BoolPref(v)]) == Snapshot(p).(canKeyTurn := Some(BoolPref(v)));
  }

  lemma ReloadAfterAloudCanKeyTurn(p: Store<Key>, v: bool, marginDefault: int)
    ensures Load(p[ReadAloudCanKeyTurnKey := BoolPref(v)], marginDefault) == Load(p, marginDefault).(readAloudCanKeyTurn := v)
  {
    assert Snapshot(p[ReadAloudCanKeyTurnKey := BoolPref(v)]) == Snapshot(p).(readAloudCanKeyTurn := Some(BoolPref(v)));
  }

  lemma ReloadAfterCanClickTurn(p: Store<Key>, v: bool, marginDefault: int)
    ensures Load(p[CanClickTurnKey := BoolPref(v)], marginDefault) == Load(p, marginDefault).(canClickTurn := v)
  {
    assert Snapshot(p[CanClickTurnKey := BoolPref(v)]) == Snapshot(p).(canClickTurn := Some(BoolPref(v)));
  }

  lemma ReloadAfterCpm(p: Store<Key>, v: int, marginDefault: int)
    ensures Load(p[CpmKey := IntPref(SetterCpm(v))], marginDefault) == Load(p, marginDefault).(cpm := SetterCpm(v))
  {
    assert Snapshot(p[CpmKey := IntPref(SetterCpm(v))]) == Snapshot(p).(cpm := Some(IntPref(SetterCpm(v))));
  }

  lemma ReloadAfterClickAllNext(p: Store<Key>, v: bool, marginDefault: int)
    ensures Load(p[ClickAllNextKey := BoolPref(v)], marginDefault) == Load(p, marginDefault).(clickAllNext := v)
  {
    assert Snapshot(p[ClickAllNextKey := BoolPref(v)]) == Snapshot(p).(clickAllNext := Some(BoolPref(v)));
  }

  lemma ReloadAfterSpeechRate(p: Store<Key>, v: int, marginDefault: int)
    ensures Load(p[SpeechRateKey := IntPref(v)], marginDefault) == Load(p, marginDefault).(speechRate := v)
  {
    assert Snapshot(p[SpeechRateKey := IntPref(v)]) == Snapshot(p).(speechRate := Some(IntPref(v)));
  }

  lemma ReloadAfterSpeechRateFollowSys(p: Store<Key>, v: bool, marginDefault: int)
    ensures Load(p[SpeechRateFollowSysKey := BoolPref(v)], marginDefault) == Load(p, marginDefault).(speechRateFollowSys := v)
  {
    assert Snapshot(p[SpeechRateFollowSysKey := BoolPref(v)]) == Snapshot(p).(speechRateFollowSys := Some(BoolPref(v)));
  }

  lemma ReloadAfterLightNovelParagraph(p: Store<Key>, v: bool, marginDefault: int)
    ensures Load(p[LightNovelParagraphKey := BoolPref(v)], marginDefault) == Load(p, marginDefault).(lightNovelParagraph := v)
  {
    assert Snapshot(p[LightNovelParagraphKey := BoolPref(v)]) == Snapshot(p).(lightNovelParagraph := Some(BoolPref(v)));
  }

  lemma ReloadAfterScreenTimeOut(p: Store<Key>, v: int, marginDefault: int)
    ensures Load(p[ScreenTimeOutKey := IntPref(v)], marginDefault) == Load(p, marginDefault).(screenTimeOut := v)
  {
    assert Snapshot(p[ScreenTimeOutKey := IntPref(v)]) == Snapshot(p).(screenTimeOut := Some(IntPref(v)));
  }

  lemma ReloadAfterPaddingLeft(p: Store<Key>, v: int, marginDefault: int)
    ensures Load(p[PaddingLeftKey := IntPref(v)], marginDefault) == Load(p, marginDefault).(paddingLeft := v)
  {
    assert Snapshot(p[PaddingLeftKey := IntPref(v)]) == Snapshot(p).(paddingLeft := Some(IntPref(v)));
  }

  lemma ReloadAfterPaddingTop(p: Store<Key>, v: int, marginDefault: int)
    ensures Load(p[PaddingTopKey := IntPref(v)], marginDefault) == Load(p, marginDefault).(paddingTop := v)
  {
    assert Snapshot(p[PaddingTopKey := IntPref(v)]) == Snapshot(p).(paddingTop := Some(IntPref(v)));
  }

  lemma ReloadAfterPaddingRight(p: Store<Key>, v: int, marginDefault: int)
    ensures Load(p[PaddingRightKey := IntPref(v)], marginDefault) == Load(p, marginDefault).(paddingRight := v)
  {
    assert Snapshot(p[PaddingRightKey := IntPref(v)]) == Snapshot(p).(paddingRight := Some(IntPref(v)));
  }

  lemma ReloadAfterPaddingBottom(p: Store<Key>, v: int, marginDefault: int)
    ensures Load(p[PaddingBottomKey := IntPref(v)], marginDefault) == Load(p, marginDefault).(paddingBottom := v)
  {
    assert Snapshot(p[PaddingBottomKey := IntPref(v)]) == Snapshot(p).(paddingBottom := Some(IntPref(v)));
  }

  lemma ReloadAfterTipPaddingLeft(p: Store<Key>, v: int, marginDefault: int)
    ensures Load(p[TipPaddingLeftKey := IntPref(v)], marginDefault) == Load(p, marginDefault).(tipPaddingLeft := v)
  {
    assert Snapshot(p[TipPaddingLeftKey := IntPref(v)]) == Snapshot(p).(tipPaddingLeft := Some(IntPref(v)));
  }

  lemma ReloadAfterCanSelectText(p: Store<Key>, v: bool, marginDefault: int)
    ensures Load(p[CanSelectTextKey := BoolPref(v)], marginDefault) == Load(p, marginDefault).(canSelectText := v)
  {
    assert Snapshot(p[CanSelectTextKey := BoolPref(v)]) == Snapshot(p).(canSelectText := Some(BoolPref(v)));
  }

  lemma ReloadAfterTipPaddingTop(p: Store<Key>, v: int, marginDefault: int)
    ensures Load(p[TipPaddingTopKey := IntPref(v)], marginDefault) == Load(p, marginDefault).(tipPaddingTop := v)
  {
    assert Snapshot(p[TipPaddingTopKey := IntPref(v)]) == Snapshot(p).(tipPaddingTop := Some(IntPref(v)));
  }

  lemma ReloadAfterTipPaddingRight(p: Store<Key>, v: int, marginDefault: int)
    ensures Load(p[TipPaddingRightKey := IntPref(v)], marginDefault) == Load(p, marginDefault).(tipPaddingRight := v)
  {
    assert Snapshot(p[TipPaddingRightKey := IntPref(v)]) == Snapshot(p).(tipPaddingRight := Some(IntPref(v)));
  }

  lemma ReloadAfterTipPaddingBottom(p: Store<Key>, v: int, marginDefault: int)
    ensures Load(p[TipPaddingBottomKey := IntPref(v)], marginDefault) == Load(p, marginDefault).(tipPaddingBottom := v)
  {
    assert Snapshot(p[TipPaddingBottomKey := IntPref(v)]) == Snapshot(p).(tipPaddingBottom := Some(IntPref(v)));
  }

  lemma ReloadAfterScreenDirection(p: Store<Key>, v: int, marginDefault: int)
    ensures Load(p[ScreenDirectionKey := IntPref(v)], marginDefault) == Load(p, marginDefault).(screenDirection := v)
  {
    assert Snapshot(p[ScreenDirectionKey := IntPref(v)]) == Snapshot(p).(screenDirection := Some(IntPref(v)));
  }

  lemma ReloadAfterIndent(p: Store<Key>, v: int, marginDefault: int)
    ensures Load(p[IndentKey := IntPref(v)], marginDefault) == Load(p, marginDefault).(indent := v)
  {
    assert Snapshot(p[IndentKey := IntPref(v)]) == Snapshot(p).(indent := Some(IntPref(v)));
  }

  lemma ReloadAfterLight(p: Store<Key>, v: int, marginDefault: int)
    ensures Load(p[LightKey := IntPref(v)], marginDefault) == Load(p, marginDefault)
  {
    assert Snapshot(p[LightKey := IntPref(v)]) == Snapshot(p);
  }

  lemma ReloadAfterLightFollowSys(p: Store<Key>, v: bool, marginDefault: int)
    ensures Load(p[LightFollowSysKey := BoolPref(v)], marginDefault) == Load(p, marginDefault)
  {
    assert Snapshot(p[LightFollowSysKey := BoolPref(v)]) == Snapshot(p);
  }

  /** `Load` written as the individual typed reads `updateReaderSettings` performs. */
  lemma LoadByTypedReads(p: Store<Key>, marginDefault: int)
    ensures Load(p, marginDefault) == Settings(
      GetBool(p, LightNovelParagraphKey, false),
      GetInt(p, IndentKey, 2),
      GetInt(p, TextSizeKey, 20),
      GetBool(p, CanKeyReturnKey, false),
      GetBool(p, CanClickTurnKey, true),
      GetBool(p, CanKeyTurnKey, true),
      GetBool(p, ReadAloudCanKeyTurnKey, false),
      if GetInt(p, CpmKey, DefaultCpm) > MaxCpm then MinCpm else GetInt(p, CpmKey, DefaultCpm),
      GetBool(p, ClickAllNextKey, false),
      GetString(p, FontPathKey, None),
      GetInt(p, TextConvertIntKey, 0),
      GetBool(p, TextBoldKey, false),
      GetInt(p, SpeechRateKey, 10),
      GetBool(p, SpeechRateFollowSysKey, true),
      GetInt(p, ScreenTimeOutKey, 0),
      GetInt(p, PaddingLeftKey, marginDefault),
      GetInt(p, PaddingTopKey, 0),
      GetInt(p, PaddingRightKey, marginDefault),
      GetInt(p, PaddingBottomKey, 0),
      GetInt(p, TipPaddingLeftKey, marginDefault),
      GetInt(p, TipPaddingTopKey, 0),
      GetInt(p, TipPaddingRightKey, marginDefault),
      GetInt(p, TipPaddingBottomKey, 0),
      GetInt(p, ScreenDirectionKey, 0),
      GetBool(p, CanSelectTextKey, false))
  {
  }

  class ReadBookControl {
    var lightNovelParagraph: bool
    var indent: int
    var textSize: int
    var canKeyReturn: bool
    var canClickTurn: bool
    var canKeyTurn: bool
    var readAloudCanKeyTurn: bool
    var cpm: int
    var clickAllNext: bool
    var fontPath: Option<string>
    var textConvert: int
    var textBold: bool
    var speechRate: int
    var speechRateFollowSys: bool
    var screenTimeOut: int
    var paddingLeft: int
    var paddingTop: int
    var paddingRight: int
    var paddingBottom: int
    var tipPaddingLeft: int
    var tipPaddingTop: int
    var tipPaddingRight: int
    var tipPaddingBottom: int
    var screenDirection: int
    var canSelectText: bool

    /** Set once by `initTextDrawable`; there is no setter. */
    const textColor: int
    /** The page renderer's default margin width, the default of the four left/right margins. */
    const marginDefault: int
    /** The `SharedPreferences` store the fields are persisted in. */
    var prefs: Store<Key>

    ghost function Current(): Settings
      reads this
    {
      Settings(lightNovelParagraph, indent, textSize, canKeyReturn, canClickTurn,
        canKeyTurn, readAloudCanKeyTurn, cpm, clickAllNext, fontPath, textConvert,
        textBold, speechRate, speechRateFollowSys, screenTimeOut,
        paddingLeft, paddingTop, paddingRight, paddingBottom,
        tipPaddingLeft, tipPaddingTop, tipPaddingRight, tipPaddingBottom,
        screenDirection, canSelectText)
    }

    /** The fields hold exactly what a reload of the store would give. */
    ghost predicate Synced()
      reads this
    {
      Current() == Load(prefs, marginDefault)
    }

    constructor (preferences: Store<Key>, marginDefault: int)
      ensures prefs == preferences && this.marginDefault == marginDefault
      ensures textColor == Black
      ensures Synced()
    {
      this.marginDefault := marginDefault;
      prefs := preferences;
      textColor := Black;
      new;
      UpdateReaderSettings();
    }

    /**
      Re-reads every field from the store under its key, with its default when
      the key is absent. The fields are read in two halves of two groups each.
     */
    method UpdateReaderSettings()
      modifies this
      ensures prefs == old(prefs)
      ensures Current() == Load(prefs, marginDefault)
    {
      hide Load, GetInt, GetBool, GetString;
      LoadFirstHalf();
      LoadSecondHalf();
      LoadByTypedReads(prefs, marginDefault);
    }

    method LoadFirstHalf()
      modifies this`lightNovelParagraph, this`indent, this`textSize, this`fontPath, this`textConvert, this`textBold, this`canKeyReturn, this`canClickTurn, this`canKeyTurn, this`readAloudCanKeyTurn, this`cpm, this`clickAllNext
      ensures lightNovelParagraph == GetBool(prefs, LightNovelParagraphKey, false)
      ensures indent == GetInt(prefs, IndentKey, 2)
      ensures textSize == GetInt(prefs, TextSizeKey, 20)
      ensures fontPath == GetString(prefs, FontPathKey, None)
      ensures textConvert == GetInt(prefs, TextConvertIntKey, 0)
      ensures textBold == GetBool(prefs, TextBoldKey, false)
      ensures canKeyReturn == GetBool(prefs, CanKeyReturnKey, false)
      ensures canClickTurn == GetBool(prefs, CanClickTurnKey, true)
      ensures canKeyTurn == GetBool(prefs, CanKeyTurnKey, true)
      ensures readAloudCanKeyTurn == GetBool(prefs, ReadAloudCanKeyTurnKey, false)
      ensures cpm == if GetInt(prefs, CpmKey, DefaultCpm) > MaxCpm then MinCpm else GetInt(prefs, CpmKey, DefaultCpm)
      ensures clickAllNext == GetBool(prefs, ClickAllNextKey, false)
    {
      hide GetInt, GetBool, GetString;
      LoadTextSettings();
      LoadPageTurnSettings();
    }

    method LoadSecondHalf()
      modifies this`speechRate, this`speechRateFollowSys, this`screenTimeOut, this`screenDirection, this`canSelectText, this`paddingLeft, this`paddingTop, this`paddingRight, this`paddingBottom, this`tipPaddingLeft, this`tipPaddingTop, this`tipPaddingRight, this`tipPaddingBottom
      ensures speechRate == GetInt(prefs, SpeechRateKey, 10)
      ensures speechRateFollowSys == GetBool(prefs, SpeechRateFollowSysKey, true)
      ensures screenTimeOut == GetInt(prefs, ScreenTimeOutKey, 0)
      ensures screenDirection == GetInt(prefs, ScreenDirectionKey, 0)
      ensures canSelectText == GetBool(prefs, CanSelectTextKey, false)
      ensures paddingLeft == GetInt(prefs, PaddingLeftKey, marginDefault)
      ensures paddingTop == GetInt(prefs, PaddingTopKey, 0)
      ensures paddingRight == GetInt(prefs, PaddingRightKey, marginDefault)
      ensures paddingBottom == GetInt(prefs, PaddingBottomKey, 0)
      ensures tipPaddingLeft == GetInt(prefs, TipPaddingLeftKey, marginDefault)
      ensures tipPaddingTop == GetInt(prefs, TipPaddingTopKey, 0)
      ensures tipPaddingRight == GetInt(prefs, TipPaddingRightKey, marginDefault)
      ensures tipPaddingBottom == GetInt(prefs, TipPaddingBottomKey, 0)
    {
      hide GetInt, GetBool, GetString;
      LoadSpeechAndScreenSettings();
      LoadMargins();
    }

    /** The typesetting fields. */
    method LoadTextSettings()
      modifies this`lightNovelParagraph, this`indent, this`textSize, this`fontPath, this`textConvert, this`textBold
      ensures lightNovelParagraph == GetBool(prefs, LightNovelParagraphKey, false)
      ensures indent == GetInt(prefs, IndentKey, 2)
      ensures textSize == GetInt(prefs, TextSizeKey, 20)
      ensures fontPath == GetString(prefs, FontPathKey, None)
      ensures textConvert == GetInt(prefs, TextConvertIntKey, 0)
      ensures textBold == GetBool(prefs, TextBoldKey, false)
    {
      lightNovelParagraph := GetBool(prefs, LightNovelParagraphKey, false);
      indent := GetInt(prefs, IndentKey, 2);
      textSize := GetInt(prefs, TextSizeKey, 20);
      fontPath := GetString(prefs, FontPathKey, None);
      textConvert := GetInt(prefs, TextConvertIntKey, 0);
      textBold := GetBool(prefs, TextBoldKey, false);
    }

    /** The page-turning fields; a stored CPM above MaxCpm reads as MinCpm. */
    method LoadPageTurnSettings()
      modifies this`canKeyReturn, this`canClickTurn, this`canKeyTurn, this`readAloudCanKeyTurn, this`cpm, this`clickAllNext
      ensures canKeyReturn == GetBool(prefs, CanKeyReturnKey, false)
      ensures canClickTurn == GetBool(prefs, CanClickTurnKey, true)
      ensures canKeyTurn == GetBool(prefs, CanKeyTurnKey, true)
      ensures readAloudCanKeyTurn == GetBool(prefs, ReadAloudCanKeyTurnKey, false)
      ensures cpm == if GetInt(prefs, CpmKey, DefaultCpm) > MaxCpm then MinCpm else GetInt(prefs, CpmKey, DefaultCpm)
      ensures clickAllNext == GetBool(prefs, ClickAllNextKey, false)
    {
      canKeyReturn := GetBool(prefs, CanKeyReturnKey, false);
      canClickTurn := GetBool(prefs, CanClickTurnKey, true);
      canKeyTurn := GetBool(prefs, CanKeyTurnKey, true);
      readAloudCanKeyTurn := GetBool(prefs, ReadAloudCanKeyTurnKey, false);
      cpm := if GetInt(prefs, CpmKey, DefaultCpm) > MaxCpm then MinCpm else GetInt(prefs, CpmKey, DefaultCpm);
      clickAllNext := GetBool(prefs, ClickAllNextKey, false);
    }

    /** The read-aloud and screen fields. */
    method LoadSpeechAndScreenSettings()
      modifies this`speechRate, this`speechRateFollowSys, this`screenTimeOut, this`screenDirection, this`canSelectText
      ensures speechRate == GetInt(prefs, SpeechRateKey, 10)
      ensures speechRateFollowSys == GetBool(prefs, SpeechRateFollowSysKey, true)
      ensures screenTimeOut == GetInt(prefs, ScreenTimeOutKey, 0)
      ensures screenDirection == GetInt(prefs, ScreenDirectionKey, 0)
      ensures canSelectText == GetBool(prefs, CanSelectTextKey, false)
    {
      speechRate := GetInt(prefs, SpeechRateKey, 10);
      speechRateFollowSys := GetBool(prefs, SpeechRateFollowSysKey, true);
      screenTimeOut := GetInt(prefs, ScreenTimeOutKey, 0);
      screenDirection := GetInt(prefs, ScreenDirectionKey, 0);
      canSelectText := GetBool(prefs, CanSelectTextKey, false);
    }

    /** The page and tip margins. */
    method LoadMargins()
      modifies this`paddingLeft, this`paddingTop, this`paddingRight, this`paddingBottom, this`tipPaddingLeft, this`tipPaddingTop, this`tipPaddingRight, this`tipPaddingBottom
      ensures paddingLeft == GetInt(prefs, PaddingLeftKey, marginDefault)
      ensures paddingTop == GetInt(prefs, PaddingTopKey, 0)
      ensures paddingRight == GetInt(prefs, PaddingRightKey, marginDefault)
      ensures paddingBottom == GetInt(prefs, PaddingBottomKey, 0)
      ensures tipPaddingLeft == GetInt(prefs, TipPaddingLeftKey, marginDefault)
      ensures tipPaddingTop == GetInt(prefs, TipPaddingTopKey, 0)
      ensures tipPaddingRight == GetInt(prefs, TipPaddingRightKey, marginDefault)
      ensures tipPaddingBottom == GetInt(prefs, TipPaddingBottomKey, 0)
    {
      paddingLeft := GetInt(prefs, PaddingLeftKey, marginDefault);
      paddingTop := GetInt(prefs, PaddingTopKey, 0);
      paddingRight := GetInt(prefs, PaddingRightKey, marginDefault);
      paddingBottom := GetInt(prefs, PaddingBottomKey, 0);
      tipPaddingLeft := GetInt(prefs, TipPaddingLeftKey, marginDefault);
      tipPaddingTop := GetInt(prefs, TipPaddingTopKey, 0);
      tipPaddingRight := GetInt(prefs, TipPaddingRightKey, marginDefault);
      tipPaddingBottom := GetInt(prefs, TipPaddingBottomKey, 0);
    }

    /** The Simplified/Traditional conversion mode: a stored -1 reads as 2. */
    function GetTextConvert(): (r: int)
      reads this
      ensures textConvert == -1 ==> r == 2
      ensures textConvert != -1 ==> r == textConvert
      ensures r != -1
    {
      if textConvert == -1 then 2 else textConvert
    }

    /**
      Whether a volume key turns the page: never when key turning is off;
      otherwise always when read-aloud key turning is on, and only while not
      reading aloud when it is off.
     */
    function GetCanKeyTurn(isPlay: bool): (r: bool)
      reads this
      ensures r <==> canKeyTurn && (readAloudCanKeyTurn || !isPlay)
    {
      if !canKeyTurn then false
      else if readAloudCanKeyTurn then true
      else !isPlay
    }

    /** The stored brightness, or the system's current brightness when none is stored. */
    function GetLight(screenBrightness: int): (r: int)
      reads this
      ensures LightKey !in prefs ==> r == screenBrightness
      ensures LightKey in prefs && prefs[LightKey].IntPref? ==> r == prefs[LightKey].i
    {
      GetInt(prefs, LightKey, screenBrightness)
    }

    /** The stored follow-system flag, true when none is stored. */
    function GetLightFollowSys(): (r: bool)
      reads this
      ensures LightFollowSysKey !in prefs ==> r
      ensures LightFollowSysKey in prefs && prefs[LightFollowSysKey].BoolPref? ==> r == prefs[LightFollowSysKey].b
    {
      GetBool(prefs, LightFollowSysKey, true)
    }

    method SetTextSize(textSize: int)
      modifies this
      ensures Current() == old(Current()).(textSize := textSize)
      ensures prefs == old(prefs)[TextSizeKey := IntPref(textSize)]
      ensures old(Synced()) ==> Synced()
    {
      hide Load;
      this.textSize := textSize;
      prefs := prefs[TextSizeKey := IntPref(textSize)];
      ReloadAfterTextSize(old(prefs), textSize, marginDefault);
    }

    method SetTextConvert(textConvert: int)
      modifies this
      ensures Current() == old(Current()).(textConvert := textConvert)
      ensures prefs == old(prefs)[TextConvertIntKey := IntPref(textConvert)]
      ensures old(Synced()) ==> Synced()
    {
      hide Load;
      this.textConvert := textConvert;
      prefs := prefs[TextConvertIntKey := IntPref(textConvert)];
      ReloadAfterTextConvert(old(prefs), textConvert, marginDefault);
    }

    method SetTextBold(textBold: bool)
      modifies this
      ensures Current() == old(Current()).(textBold := textBold)
      ensures prefs == old(prefs)[TextBoldKey := BoolPref(textBold)]
      ensures old(Synced()) ==> Synced()
    {
      hide Load;
      this.textBold := textBold;
      prefs := prefs[TextBoldKey := BoolPref(textBold)];
      ReloadAfterTextBold(old(prefs), textBold, marginDefault);
    }

    /** A `None` path removes the key, as `putString(key, null)` does. */
    method SetReadBookFont(fontPath: Option<string>)
      modifies this
      ensures Current() == old(Current()).(fontPath := fontPath)
      ensures prefs == PutString(old(prefs), FontPathKey, fontPath)
      ensures old(Synced()) ==> Synced()
    {
      hide Load, PutString;
      this.fontPath := fontPath;
      prefs := PutString(prefs, FontPathKey, fontPath);
      ReloadAfterReadBookFont(old(prefs), fontPath, marginDefault);
    }

    method SetCanKeyReturn(canKeyReturn: bool)
      modifies this
      ensures Current() == old(Current()).(canKeyReturn := canKeyReturn)
      ensures prefs == old(prefs)[CanKeyReturnKey := BoolPref(canKeyReturn)]
      ensures old(Synced()) ==> Synced()
    {
      hide Load;
      this.canKeyReturn := canKeyReturn;
      prefs := prefs[CanKeyReturnKey := BoolPref(canKeyReturn)];
      ReloadAfterCanKeyReturn(old(prefs), canKeyReturn, marginDefault);
    }

    method SetCanKeyTurn(canKeyTurn: bool)
      modifies this
      ensures Current() == old(Current()).(canKeyTurn := canKeyTurn)
      ensures prefs == old(prefs)[CanKeyTurnKey := BoolPref(canKeyTurn)]
      ensures old(Synced()) ==> Synced()
    {
      hide Load;
      this.canKeyTurn := canKeyTurn;
      prefs := prefs[CanKeyTurnKey := BoolPref(canKeyTurn)];
      ReloadAfterCanKeyTurn(old(prefs), canKeyTurn, marginDefault);
    }

    method SetAloudCanKeyTurn(aloudCanKeyTurn: bool)
      modifies this
      ensures Current() == old(Current()).(readAloudCanKeyTurn := aloudCanKeyTurn)
      ensures prefs == old(prefs)[ReadAloudCanKeyTurnKey := BoolPref(aloudCanKeyTurn)]
      ensures old(Synced()) ==> Synced()
    {
      hide Load;
      readAloudCanKeyTurn := aloudCanKeyTurn;
      prefs := prefs[ReadAloudCanKeyTurnKey := BoolPref(aloudCanKeyTurn)];
      ReloadAfterAloudCanKeyTurn(old(prefs), aloudCanKeyTurn, marginDefault);
    }

    method SetCanClickTurn(canClickTurn: bool)
      modifies this
      ensures Current() == old(Current()).(canClickTurn := canClickTurn)
      ensures prefs == old(prefs)[CanClickTurnKey := BoolPref(canClickTurn)]
      ensures old(Synced()) ==> Synced()
    {
      hide Load;
      this.canClickTurn := canClickTurn;
      prefs := prefs[CanClickTurnKey := BoolPref(canClickTurn)];
      ReloadAfterCanClickTurn(old(prefs), canClickTurn, marginDefault);
    }

    /** An argument outside [MinCpm, MaxCpm] is replaced by DefaultCpm before it is kept and stored. */
    method SetCPM(cpm: int)
      modifies this
      ensures MinCpm <= this.cpm <= MaxCpm
      ensures Current() == old(Current()).(cpm := SetterCpm(cpm))
      ensures prefs == old(prefs)[CpmKey := IntPref(SetterCpm(cpm))]
      ensures old(Synced()) ==> Synced()
    {
      hide Load;
      var kept := SetterCpm(cpm);
      this.cpm := kept;
      prefs := prefs[CpmKey := IntPref(kept)];
      ReloadAfterCpm(old(prefs), cpm, marginDefault);
    }

    method SetClickAllNext(clickAllNext: bool)
      modifies this
      ensures Current() == old(Current()).(clickAllNext := clickAllNext)
      ensures prefs == old(prefs)[ClickAllNextKey := BoolPref(clickAllNext)]
      ensures old(Synced()) ==> Synced()
    {
      hide Load;
      this.clickAllNext := clickAllNext;
      prefs := prefs[ClickAllNextKey := BoolPref(clickAllNext)];
      ReloadAfterClickAllNext(old(prefs), clickAllNext, marginDefault);
    }

    method SetSpeechRate(speechRate: int)
      modifies this
      ensures Current() == old(Current()).(speechRate := speechRate)
      ensures prefs == old(prefs)[SpeechRateKey := IntPref(speechRate)]
      ensures old(Synced()) ==> Synced()
    {
      hide Load;
      this.speechRate := speechRate;
      prefs := prefs[SpeechRateKey := IntPref(speechRate)];
      ReloadAfterSpeechRate(old(prefs), speechRate, marginDefault);
    }

    method SetSpeechRateFollowSys(speechRateFollowSys: bool)
      modifies this
      ensures Current() == old(Current()).(speechRateFollowSys := speechRateFollowSys)
      ensures prefs == old(prefs)[SpeechRateFollowSysKey := BoolPref(speechRateFollowSys)]
      ensures old(Synced()) ==> Synced()
    {
      hide Load;
      this.speechRateFollowSys := speechRateFollowSys;
      prefs := prefs[SpeechRateFollowSysKey := BoolPref(speechRateFollowSys)];
      ReloadAfterSpeechRateFollowSys(old(prefs), speechRateFollowSys, marginDefault);
    }

    method SetLightNovelParagraph(lightNovelParagraph: bool)
      modifies this
      ensures Current() == old(Current()).(lightNovelParagraph := lightNovelParagraph)
      ensures prefs == old(prefs)[LightNovelParagraphKey := BoolPref(lightNovelParagraph)]
      ensures old(Synced()) ==> Synced()
    {
      hide Load;
      this.lightNovelParagraph := lightNovelParagraph;
      prefs := prefs[LightNovelParagraphKey := BoolPref(lightNovelParagraph)];
      ReloadAfterLightNovelParagraph(old(prefs), lightNovelParagraph, marginDefault);
    }

    method SetScreenTimeOut(screenTimeOut: int)
      modifies this
      ensures Current() == old(Current()).(screenTimeOut := screenTimeOut)
      ensures prefs == old(prefs)[ScreenTimeOutKey := IntPref(screenTimeOut)]
      ensures old(Synced()) ==> Synced()
    {
      hide Load;
      this.screenTimeOut := screenTimeOut;
      prefs := prefs[ScreenTimeOutKey := IntPref(screenTimeOut)];
      ReloadAfterScreenTimeOut(old(prefs), screenTimeOut, marginDefault);
    }

    method SetPaddingLeft(paddingLeft: int)
      modifies this
      ensures Current() == old(Current()).(paddingLeft := paddingLeft)
      ensures prefs == old(prefs)[PaddingLeftKey := IntPref(paddingLeft)]
      ensures old(Synced()) ==> Synced()
    {
      hide Load;
      this.paddingLeft := paddingLeft;
      prefs := prefs[PaddingLeftKey := IntPref(paddingLeft)];
      ReloadAfterPaddingLeft(old(prefs), paddingLeft, marginDefault);
    }

    method SetPaddingTop(paddingTop: int)
      modifies this
      ensures Current() == old(Current()).(paddingTop := paddingTop)
      ensures prefs == old(prefs)[PaddingTopKey := IntPref(paddingTop)]
      ensures old(Synced()) ==> Synced()
    {
      hide Load;
      this.paddingTop := paddingTop;
      prefs := prefs[PaddingTopKey := IntPref(paddingTop)];
      ReloadAfterPaddingTop(old(prefs), paddingTop, marginDefault);
    }

    method SetPaddingRight(paddingRight: int)
      modifies this
      ensures Current() == old(Current()).(paddingRight := paddingRight)
      ensures prefs == old(prefs)[PaddingRightKey := IntPref(paddingRight)]
      ensures old(Synced()) ==> Synced()
    {
      hide Load;
      this.paddingRight := paddingRight;
      prefs := prefs[PaddingRightKey := IntPref(paddingRight)];
      ReloadAfterPaddingRight(old(prefs), paddingRight, marginDefault);
    }

    method SetPaddingBottom(paddingBottom: int)
      modifies this
      ensures Current() == old(Current()).(paddingBottom := paddingBottom)
      ensures prefs == old(prefs)[PaddingBottomKey := IntPref(paddingBottom)]
      ensures old(Synced()) ==> Synced()
    {
      hide Load;
      this.paddingBottom := paddingBottom;
      prefs := prefs[PaddingBottomKey := IntPref(paddingBottom)];
      ReloadAfterPaddingBottom(old(prefs), paddingBottom, marginDefault);
    }

    method SetTipPaddingLeft(tipPaddingLeft: int)
      modifies this
      ensures Current() == old(Current()).(tipPaddingLeft := tipPaddingLeft)
      ensures prefs == old(prefs)[TipPaddingLeftKey := IntPref(tipPaddingLeft)]
      ensures old(Synced()) ==> Synced()
    {
      hide Load;
      this.tipPaddingLeft := tipPaddingLeft;
      prefs := prefs[TipPaddingLeftKey := IntPref(tipPaddingLeft)];
      ReloadAfterTipPaddingLeft(old(prefs), tipPaddingLeft, marginDefault);
    }

    method SetCanSelectText(canSelectText: bool)
      modifies this
      ensures Current() == old(Current()).(canSelectText := canSelectText)
      ensures prefs == old(prefs)[CanSelectTextKey := BoolPref(canSelectText)]
      ensures old(Synced()) ==> Synced()
    {
      hide Load;
      this.canSelectText := canSelectText;
      prefs := prefs[CanSelectTextKey := BoolPref(canSelectText)];
      ReloadAfterCanSelectText(old(prefs), canSelectText, marginDefault);
    }

    method SetTipPaddingTop(tipPaddingTop: int)
      modifies this
      ensures Current() == old(Current()).(tipPaddingTop := tipPaddingTop)
      ensures prefs == old(prefs)[TipPaddingTopKey := IntPref(tipPaddingTop)]
      ensures old(Synced()) ==> Synced()
    {
      hide Load;
      this.tipPaddingTop := tipPaddingTop;
      prefs := prefs[TipPaddingTopKey := IntPref(tipPaddingTop)];
      ReloadAfterTipPaddingTop(old(prefs), tipPaddingTop, marginDefault);
    }

    method SetTipPaddingRight(tipPaddingRight: int)
      modifies this
      ensures Current() == old(Current()).(tipPaddingRight := tipPaddingRight)
      ensures prefs == old(prefs)[TipPaddingRightKey := IntPref(tipPaddingRight)]
      ensures old(Synced()) ==> Synced()
    {
      hide Load;
      this.tipPaddingRight := tipPaddingRight;
      prefs := prefs[TipPaddingRightKey := IntPref(tipPaddingRight)];
      ReloadAfterTipPaddingRight(old(prefs), tipPaddingRight, marginDefault);
    }

    method SetTipPaddingBottom(tipPaddingBottom: int)
      modifies this
      ensures Current() == old(Current()).(tipPaddingBottom := tipPaddingBottom)
      ensures prefs == old(prefs)[TipPaddingBottomKey := IntPref(tipPaddingBottom)]
      ensures old(Synced()) ==> Synced()
    {
      hide Load;
      this.tipPaddingBottom := tipPaddingBottom;
      prefs := prefs[TipPaddingBottomKey := IntPref(tipPaddingBottom)];
      ReloadAfterTipPaddingBottom(old(prefs), tipPaddingBottom, marginDefault);
    }

    method SetScreenDirection(screenDirection: int)
      modifies this
      ensures Current() == old(Current()).(screenDirection := screenDirection)
      ensures prefs == old(prefs)[ScreenDirectionKey := IntPref(screenDirection)]
      ensures old(Synced()) ==> Synced()
    {
      hide Load;
      this.screenDirection := screenDirection;
      prefs := prefs[ScreenDirectionKey := IntPref(screenDirection)];
      ReloadAfterScreenDirection(old(prefs), screenDirection, marginDefault);
    }

    method SetIndent(indent: int)
      modifies this
      ensures Current() == old(Current()).(indent := indent)
      ensures prefs == old(prefs)[IndentKey := IntPref(indent)]
      ensures old(Synced()) ==> Synced()
    {
      hide Load;
      this.indent := indent;
      prefs := prefs[IndentKey := IntPref(indent)];
      ReloadAfterIndent(old(prefs), indent, marginDefault);
    }

    /** Brightness lives only in the store: no field changes, and `GetLight` reads it back. */
    method SetLight(light: int)
      modifies this
      ensures Current() == old(Current())
      ensures prefs == old(prefs)[LightKey := IntPref(light)]
      ensures forall screenBrightness :: GetLight(screenBrightness) == light
      ensures old(Synced()) ==> Synced()
    {
      hide Load;
      prefs := prefs[LightKey := IntPref(light)];
      ReloadAfterLight(old(prefs), light, marginDefault);
    }

    method SetLightFollowSys(isFollowSys: bool)
      modifies this
      ensures Current() == old(Current())
      ensures prefs == old(prefs)[LightFollowSysKey := BoolPref(isFollowSys)]
      ensures GetLightFollowSys() == isFollowSys
      ensures old(Synced()) ==> Synced()
    {
      hide Load;
      prefs := prefs[LightFollowSysKey := BoolPref(isFollowSys)];
      ReloadAfterLightFollowSys(old(prefs), isFollowSys, marginDefault);
    }
  }
}
