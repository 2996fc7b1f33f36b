/**
  The book-switching part of the reading screen's presenter, `ReadBookPresenter`.

  The presenter holds the open book and its chapter list. A manual switch to
  another content source (`changeBookSource`) cancels any switch still in
  flight, and on success replaces book and chapters together and then updates
  source weights through a one-slot memory of the last chosen source
  (`SavedSource`). An automatic switch (`autoChangeSource`) adopts its result
  only when the returned chapter list is non-empty. `loadBook` picks the book
  through a three-step fallback chain, `getDurChapter` clamps the reading
  position to the chapter list and `disableDurBookSource` tags the current
  source as disabled.

  The search and chapter fetches are not modelled: their outcomes are inputs.
  The asynchronous delivery of a manual switch is split in two steps,
  `ChangeBookSource` (subscribe) and `DeliverChangeSource` (the observer's
  callback), so that a switch disposed before it delivers is observable.
 */
module Presenter {
  import opened Wrappers

  /** The current book as the presenter sees it (`BookShelfBean` with its `BookInfoBean`). */
  datatype Book = Book(name: string, author: string, tag: string, noteUrl: string, durChapter: nat)

  datatype Chapter = Chapter(noteUrl: string, index: nat, name: string)

  /** A search result offered as the new source of the current book. */
  datatype SearchBook = SearchBook(name: string, author: string, tag: string, noteUrl: string)

  /** A content source as `BookSourceManager` stores it, keyed by its URL. */
  datatype BookSource = BookSource(name: string, weight: int, groups: set<string>)

  /** A detached copy of a source, with the URL it is stored under. */
  datatype SourceCopy = SourceCopy(url: string, copy: BookSource)

  /** The one-slot memory of the last chosen source: book name, save time in ms, and the chosen source's copy. */
  datatype SavedSource = SavedSource(bookName: string, saveTime: int, source: Option<SourceCopy>)

  /** The weight bookkeeping state: the source registry and the slot. */
  datatype Ledger = Ledger(sources: map<string, BookSource>, slot: SavedSource)

  /** The outcome of a source switch delivered to the presenter. */
  datatype SwitchResult = Switched(book: Book, chapters: seq<Chapter>) | SwitchFailed(message: string)

  /** What the view is told: nothing, or `changeSourceFinish` with the new book or null, after an optional toast. */
  datatype ViewCall = NoCall | ChangeSourceFinish(book: Option<Book>, toast: Option<string>)

  /** The view's reaction to `loadBook`. */
  datatype LoadOutcome = StartLoadingBook | FinishActivity

  /** What `loadBook` can reach: the intent data store, the shelf by note URL, all books, chapter lists by note URL. */
  datatype Library = Library(
    intentData: map<string, Book>,
    shelf: map<string, Book>,
    allBooks: seq<Book>,
    chapterStore: map<string, seq<Chapter>>)

  const PenaltyWindow: int := 60000
  const RepeatPenalty: int := 450
  const DisabledGroup: string := "禁用"

  /**
    The reading position clamped to the chapter list: nothing for an empty
    list, the chapter at the position when it exists, the last chapter otherwise.
   */
  function DurChapter(chapters: seq<Chapter>, durChapter: nat): (r: Option<Chapter>)
    ensures r.None? <==> chapters == []
    ensures durChapter < |chapters| ==> r == Some(chapters[durChapter])
    ensures 0 < |chapters| <= durChapter ==> r == Some(chapters[|chapters| - 1])
    ensures r.Some? ==> r.value in chapters
  {
    if |chapters| == 0 then None
    else if |chapters| > durChapter then Some(chapters[durChapter])
    else Some(chapters[|chapters| - 1])
  }

  /** The book `loadBook` settles on: the one already open, else by intent key, else by note URL, else the first of all books. */
  function PickBook(current: Option<Book>, bookKey: string, noteUrl: string, lib: Library): (r: Option<Book>)
    ensures current.Some? ==> r == current
    ensures r.None? ==> lib.allBooks == []
    ensures r.None? ==>
      current.None? && (bookKey == "" || bookKey !in lib.intentData) && (noteUrl == "" || noteUrl !in lib.shelf)
  {
    if current.Some? then current
    else if bookKey != "" && bookKey in lib.intentData then Some(lib.intentData[bookKey])
    else if noteUrl != "" && noteUrl in lib.shelf then Some(lib.shelf[noteUrl])
    else if |lib.allBooks| > 0 then Some(lib.allBooks[0])
    else None
  }

  /** The chapter list stored for a note URL; none stored reads as empty. */
  function StoredChapters(lib: Library, noteUrl: string): seq<Chapter>
  {
    if noteUrl in lib.chapterStore then lib.chapterStore[noteUrl] else []
  }

  /** `loadBook` fails exactly when no step of the chain finds a book. */
  lemma PickBookFailsIffNothingFound(current: Option<Book>, bookKey: string, noteUrl: string, lib: Library)
    ensures PickBook(current, bookKey, noteUrl, lib).None? <==>
      current.None? && (bookKey == "" || bookKey !in lib.intentData)
      && (noteUrl == "" || noteUrl !in lib.shelf) && lib.allBooks == []
  {
  }

  /** Each step of the chain is consulted only when the steps before it found nothing. */
  lemma PickBookOrder(bookKey: string, noteUrl: string, lib: Library)
    ensures bookKey != "" && bookKey in lib.intentData ==>
      PickBook(None, bookKey, noteUrl, lib) == Some(lib.intentData[bookKey])
    ensures (bookKey == "" || bookKey !in lib.intentData) && noteUrl != "" && noteUrl in lib.shelf ==>
      PickBook(None, bookKey, noteUrl, lib) == Some(lib.shelf[noteUrl])
    ensures (bookKey == "" || bookKey !in lib.intentData) && (noteUrl == "" || noteUrl !in lib.shelf) && |lib.allBooks| > 0 ==>
      PickBook(None, bookKey, noteUrl, lib) == Some(lib.allBooks[0])
  {
  }

  /** The slot's source is penalised: it holds a source, it was saved less than a minute ago, for the same book. */
  predicate PenaltyApplies(slot: SavedSource, bookName: string, now: int)
  {
    slot.source.Some? && now - slot.saveTime < PenaltyWindow && slot.bookName == bookName
  }

  /** The slot's copy as it is saved back: less `RepeatPenalty` when `PenaltyApplies`, otherwise as it was kept. */
  function WrittenBack(slot: SavedSource, bookName: string, now: int): BookSource
    requires slot.source.Some?
  {
    var copy := slot.source.value.copy;
    if PenaltyApplies(slot, bookName, now) then copy.(weight := copy.weight - RepeatPenalty) else copy
  }

  /** The slot's copy is what the registry holds for its URL. */
  predicate SlotMatchesRegistry(l: Ledger)
  {
    l.slot.source.Some? ==> l.slot.source.value.url in l.sources && l.sources[l.slot.source.value.url] == l.slot.source.value.copy
  }

  /**
    The weight bookkeeping after a successful switch to the source at `tag` for
    the book `bookName` at time `now`. The chosen source is looked up first.
    The slot's copy is then saved back, less `RepeatPenalty` when
    `PenaltyApplies`. The slot is overwritten with the book name, the time and
    the chosen source (none if the registry does not know it). Last, the chosen
    source, as looked up, gains the selection increment `bonus` and is saved.
    Each save replaces the whole stored record with the copy being saved.
   */
  function Bookkeeping(l: Ledger, bookName: string, tag: string, now: int, bonus: int): (r: Ledger)
    ensures SlotMatchesRegistry(r)
    ensures r.slot.bookName == bookName && r.slot.saveTime == now
  {
    var fetched := if tag in l.sources then Some(l.sources[tag]) else None;
    var saved := if l.slot.source.Some? then l.sources[l.slot.source.value.url := WrittenBack(l.slot, bookName, now)] else l.sources;
    match fetched
    case None => Ledger(saved, SavedSource(bookName, now, None))
    case Some(bean) =>
      var chosen := bean.(weight := bean.weight + bonus);
      Ledger(saved[tag := chosen], SavedSource(bookName, now, Some(SourceCopy(tag, chosen))))
  }

  /** The URLs the slot names: its source's, if any. */
  function SlotUrls(slot: SavedSource): set<string>
  {
    if slot.source.Some? then {slot.source.value.url} else {}
  }

  /**
    Source by source: the chosen source, if known, is its looked-up record plus
    the increment; otherwise the slot's source is its written-back copy; every
    other source is untouched. Only the slot's source can be added.
   */
  lemma RegistryAfterBookkeeping(l: Ledger, bookName: string, tag: string, now: int, bonus: int)
    ensures Bookkeeping(l, bookName, tag, now, bonus).sources.Keys == l.sources.Keys + SlotUrls(l.slot)
    ensures tag in l.sources ==>
      Bookkeeping(l, bookName, tag, now, bonus).sources[tag] == l.sources[tag].(weight := l.sources[tag].weight + bonus)
    ensures l.slot.source.Some? && (l.slot.source.value.url != tag || tag !in l.sources) ==>
      Bookkeeping(l, bookName, tag, now, bonus).sources[l.slot.source.value.url] == WrittenBack(l.slot, bookName, now)
    ensures forall url | url in l.sources && url != tag && url !in SlotUrls(l.slot) ::
      Bookkeeping(l, bookName, tag, now, bonus).sources[url] == l.sources[url]
  {
  }

  /** Afterwards the slot holds the new book name, the time and the chosen source's saved record, if the registry knows it. */
  lemma SlotAfterBookkeeping(l: Ledger, bookName: string, tag: string, now: int, bonus: int)
    ensures Bookkeeping(l, bookName, tag, now, bonus).slot
      == SavedSource(bookName, now, if tag in l.sources then Some(SourceCopy(tag, l.sources[tag].(weight := l.sources[tag].weight + bonus))) else None)
  {
  }

  /**
    While the slot's copy is what the registry holds, a source other than the
    chosen one loses exactly `RepeatPenalty` if it is the slot's source and the
    same book is switched again within the window, and is left as it was
    otherwise.
   */
  lemma PenaltyIff(l: Ledger, bookName: string, tag: string, now: int, bonus: int, url: string)
    requires SlotMatchesRegistry(l)
    requires url in l.sources && url != tag
    ensures Bookkeeping(l, bookName, tag, now, bonus).sources[url].weight == l.sources[url].weight - RepeatPenalty
      <==> url in SlotUrls(l.slot) && now - l.slot.saveTime < PenaltyWindow && l.slot.bookName == bookName
    ensures Bookkeeping(l, bookName, tag, now, bonus).sources[url].weight != l.sources[url].weight - RepeatPenalty
      ==> Bookkeeping(l, bookName, tag, now, bonus).sources[url] == l.sources[url]
  {
    RegistryAfterBookkeeping(l, bookName, tag, now, bonus);
  }

  /**
    Choosing again, within the window and for the same book, the very source in
    the slot: the chosen source was looked up before the penalised copy was
    saved, and its save comes last, so the penalty is overwritten.
   */
  lemma ReselectingSlotSourceLosesPenalty(l: Ledger, bookName: string, tag: string, now: int, bonus: int)
    requires SlotMatchesRegistry(l)
    requires l.slot.source.Some? && l.slot.source.value.url == tag
    ensures PenaltyApplies(l.slot, bookName, now) ==>
      Bookkeeping(l, bookName, tag, now, bonus).sources[tag].weight == l.sources[tag].weight + bonus
  {
  }

  /** One switch of a sequence: the new book's name, the chosen source and the time. */
  datatype Switch = Switch(bookName: string, tag: string, now: int)

  /** The bookkeeping of a sequence of successful switches, in order. */
  function Replay(l: Ledger, switches: seq<Switch>, bonus: int): Ledger
    decreases |switches|
  {
    if switches == [] then l
    else Replay(Bookkeeping(l, switches[0].bookName, switches[0].tag, switches[0].now, bonus), switches[1..], bonus)
  }

  /**
    A source that is not remembered in the slot and is never chosen keeps its
    record through any sequence of switches: only the chosen sources ever
    enter the slot, so it is never written back.
   */
  lemma {:induction false} UnchosenSourceKeepsWeight(l: Ledger, switches: seq<Switch>, bonus: int, url: string)
    requires url in l.sources
    requires url !in SlotUrls(l.slot)
    requires forall i | 0 <= i < |switches| :: switches[i].tag != url
    ensures url in Replay(l, switches, bonus).sources
    ensures Replay(l, switches, bonus).sources[url] == l.sources[url]
    decreases |switches|
  {
    if switches != [] {
      var s := switches[0];
      var next := Bookkeeping(l, s.bookName, s.tag, s.now, bonus);
      RegistryAfterBookkeeping(l, s.bookName, s.tag, s.now, bonus);
      SlotAfterBookkeeping(l, s.bookName, s.tag, s.now, bonus);
      assert next.sources[url] == l.sources[url];
      UnchosenSourceKeepsWeight(next, switches[1..], bonus, url);
    }
  }

  /**
    Switching the same book at 0 s (to source "a"), 30 s (to "b") and 90 s
    (back to "a"): the second switch costs "a" the penalty, the third costs "b"
    nothing, because exactly 60 s is not within the window.
   */
  lemma PenaltyWindowScenario(bonus: int)
    ensures var l0 := Ledger(map["a" := BookSource("A", 1000, {}), "b" := BookSource("B", 1000, {})], SavedSource("", 0, None));
      var l1 := Bookkeeping(l0, "Book", "a", 0, bonus);
      var l2 := Bookkeeping(l1, "Book", "b", 30000, bonus);
      var l3 := Bookkeeping(l2, "Book", "a", 90000, bonus);
      && l2.sources["a"].weight == 1000 + bonus - RepeatPenalty
      && l2.sources["b"].weight == 1000 + bonus
      && l3.sources["b"].weight == 1000 + bonus
      && l3.sources["a"].weight == 1000 + 2 * bonus - RepeatPenalty
      && l3.slot == SavedSource("Book", 90000, Some(SourceCopy("a", l3.sources["a"])))
  {
  }

  /**
    A source disabled while it is in the slot is re-enabled by the next
    switch: the slot's copy, taken before the disabling, is saved back over it.
   */
  lemma SwitchUndoesDisableOfSlotSource(bonus: int)
    ensures var l0 := Ledger(map["a" := BookSource("A", 1000, {}), "b" := BookSource("B", 1000, {})], SavedSource("", 0, None));
      var l1 := Bookkeeping(l0, "Book", "a", 0, bonus);
      var disabled := l1.(sources := Disable(l1.sources, "a"));
      var l2 := Bookkeeping(disabled, "Book", "b", 120000, bonus);
      && DisabledGroup in disabled.sources["a"].groups
      && DisabledGroup !in l2.sources["a"].groups
  {
  }

  /** `disableDurBookSource`: the source at `tag`, if known, gains the disabled group. */
  function Disable(sources: map<string, BookSource>, tag: string): (r: map<string, BookSource>)
    ensures r.Keys == sources.Keys
    ensures tag in sources ==> r[tag] == sources[tag].(groups := sources[tag].groups + {DisabledGroup})
    ensures forall u | u in sources && u != tag :: r[u] == sources[u]
  {
    if tag in sources then sources[tag := sources[tag].(groups := sources[tag].groups + {DisabledGroup})] else sources
  }

  /** Disabling twice is disabling once. */
  lemma DisableIdempotent(sources: map<string, BookSource>, tag: string)
    ensures Disable(Disable(sources, tag), tag) == Disable(sources, tag)
  {
  }

  class ReadBookPresenter {
    var bookShelf: Option<Book>
    var chapterBeanList: seq<Chapter>
    /** The subscription of the latest manual switch, by number. */
    var changeSourceDisposable: Option<nat>
    /** The manual-switch subscriptions neither disposed nor delivered yet. */
    var live: set<nat>
    /** The number the next subscription gets. */
    var nextSubscription: nat
    /** Whether the lazily created `ChangeSourceHelp` exists. */
    var hasChangeSourceHelp: bool
    /** The source registry of `BookSourceManager`, keyed by source URL. */
    var sources: map<string, BookSource>
    /** `SavedSource.Instance`, the last chosen source. */
    var savedSource: SavedSource
    /** What `increaseWeightBySelection` adds to a chosen source's weight. */
    const selectionBonus: int

    /**
      At most the latest manual switch is in flight, every live subscription
      number lies below the next one to be issued, and chapters are held only
      together with a book.
     */
    ghost predicate Valid()
      reads this
    {
      && (changeSourceDisposable.None? ==> live == {})
      && (changeSourceDisposable.Some? ==> live <= {changeSourceDisposable.value})
      && (forall id | id in live :: id < nextSubscription)
      && (chapterBeanList != [] ==> bookShelf.Some?)
    }

    constructor (sources: map<string, BookSource>, savedSource: SavedSource, selectionBonus: int)
      ensures Valid()
      ensures bookShelf == None && chapterBeanList == []
      ensures live == {} && changeSourceDisposable == None && nextSubscription == 0 && !hasChangeSourceHelp
      ensures this.sources == sources && this.savedSource == savedSource
      ensures this.selectionBonus == selectionBonus
    {
      bookShelf := None;
      chapterBeanList := [];
      changeSourceDisposable := None;
      live := {};
      nextSubscription := 0;
      hasChangeSourceHelp := false;
      this.sources := sources;
      this.savedSource := savedSource;
      this.selectionBonus := selectionBonus;
    }

    /**
      `loadBook`: the book is picked through the fallback chain; its chapters
      are loaded only if a book was found and no chapters are held yet. No book
      closes the screen, and so does a book without a name.
     */
    method LoadBook(bookKey: string, noteUrl: string, lib: Library) returns (outcome: LoadOutcome)
      modifies this
      requires Valid()
      ensures Valid()
      ensures bookShelf == PickBook(old(bookShelf), bookKey, noteUrl, lib)
      ensures chapterBeanList == if bookShelf.Some? && old(chapterBeanList) == []
        then StoredChapters(lib, bookShelf.value.noteUrl) else old(chapterBeanList)
      ensures outcome == if bookShelf.None? || bookShelf.value.name == "" then FinishActivity else StartLoadingBook
      ensures live == old(live) && changeSourceDisposable == old(changeSourceDisposable)
      ensures nextSubscription == old(nextSubscription) && hasChangeSourceHelp == old(hasChangeSourceHelp)
      ensures sources == old(sources) && savedSource == old(savedSource)
    {
      if bookShelf.None? {
        if bookKey != "" && bookKey in lib.intentData {
          bookShelf := Some(lib.intentData[bookKey]);
        }
      }
      if bookShelf.None? && noteUrl != "" && noteUrl in lib.shelf {
        bookShelf := Some(lib.shelf[noteUrl]);
      }
      if bookShelf.None? && |lib.allBooks| > 0 {
        bookShelf := Some(lib.allBooks[0]);
      }
      if bookShelf.Some? && chapterBeanList == [] {
        chapterBeanList := StoredChapters(lib, bookShelf.value.noteUrl);
      }
      if bookShelf.None? {
        outcome := FinishActivity;
      } else if bookShelf.value.name == "" {
        outcome := FinishActivity;
      } else {
        outcome := StartLoadingBook;
      }
    }

    /** `getDurChapter`: the chapter at the reading position, clamped to the list. */
    function GetDurChapter(): (r: Option<Chapter>)
      reads this
      requires chapterBeanList != [] ==> bookShelf.Some?
      ensures r.None? <==> chapterBeanList == []
      ensures r.Some? ==> r.value in chapterBeanList
    {
      if chapterBeanList == [] then None else DurChapter(chapterBeanList, bookShelf.value.durChapter)
    }

    /**
      `disableDurBookSource`: the current book's source gains the disabled group
      and a toast names it; with no book or an unknown source nothing changes.
     */
    method DisableDurBookSource() returns (toast: Option<string>)
      modifies this
      requires Valid()
      ensures Valid()
      ensures sources == if old(bookShelf).Some? then Disable(old(sources), old(bookShelf).value.tag) else old(sources)
      ensures toast.Some? <==> old(bookShelf).Some? && old(bookShelf).value.tag in old(sources)
      ensures toast.Some? ==> toast.value == old(sources)[old(bookShelf).value.tag].name
      ensures bookShelf == old(bookShelf) && chapterBeanList == old(chapterBeanList)
      ensures live == old(live) && changeSourceDisposable == old(changeSourceDisposable)
      ensures nextSubscription == old(nextSubscription) && hasChangeSourceHelp == old(hasChangeSourceHelp)
      ensures savedSource == old(savedSource)
    {
      toast := None;
      if bookShelf.Some? {
        var tag := bookShelf.value.tag;
        if tag in sources {
          var source := sources[tag];
          sources := sources[tag := source.(groups := source.groups + {DisabledGroup})];
          toast := Some(source.name);
        }
      }
    }

    /**
      `changeBookSource`, up to the subscription: a switch still in flight is
      disposed, the candidate gets the current book's name and author, and the
      new subscription, numbered with the next unused number, becomes the only
      live one. `request` is what is handed to the search.
     */
    method ChangeBookSource(searchBook: SearchBook) returns (request: SearchBook, subscription: nat)
      modifies this
      requires Valid()
      requires bookShelf.Some?
      ensures Valid()
      ensures request == searchBook.(name := old(bookShelf).value.name, author := old(bookShelf).value.author)
      ensures subscription == old(nextSubscription) && nextSubscription == old(nextSubscription) + 1
      ensures subscription !in old(live)
      ensures live == {subscription} && changeSourceDisposable == Some(subscription)
      ensures bookShelf == old(bookShelf) && chapterBeanList == old(chapterBeanList)
      ensures hasChangeSourceHelp == old(hasChangeSourceHelp)
      ensures sources == old(sources) && savedSource == old(savedSource)
    {
      if changeSourceDisposable.Some? && changeSourceDisposable.value in live {
        live := live - {changeSourceDisposable.value};
      }
      request := searchBook.(name := bookShelf.value.name, author := bookShelf.value.author);
      subscription := nextSubscription;
      nextSubscription := nextSubscription + 1;
      live := live + {subscription};
      changeSourceDisposable := Some(subscription);
    }

    /**
      The observer of a manual switch receiving its result. A disposed (or
      already delivered) subscription changes nothing. A success replaces book
      and chapters together, tells the view, and then runs the weight
      bookkeeping, whose failures never undo the replacement. A failure changes
      neither and tells the view null after toasting the message.
     */
    method DeliverChangeSource(subscription: nat, result: SwitchResult, now: int) returns (call: ViewCall)
      modifies this
      requires Valid()
      ensures Valid()
      ensures subscription !in old(live) ==> call == NoCall && live == old(live)
      ensures subscription in old(live) ==> live == old(live) - {subscription}
      ensures changeSourceDisposable == old(changeSourceDisposable) && nextSubscription == old(nextSubscription)
      ensures hasChangeSourceHelp == old(hasChangeSourceHelp)
      ensures subscription !in old(live) || result.SwitchFailed? ==>
        bookShelf == old(bookShelf) && chapterBeanList == old(chapterBeanList)
        && sources == old(sources) && savedSource == old(savedSource)
      ensures subscription in old(live) && result.SwitchFailed? ==>
        call == ChangeSourceFinish(None, Some(result.message))
      ensures subscription in old(live) && result.Switched? ==>
        && bookShelf == Some(result.book) && chapterBeanList == result.chapters
        && call == ChangeSourceFinish(Some(result.book), None)
        && Ledger(sources, savedSource)
          == Bookkeeping(Ledger(old(sources), old(savedSource)), result.book.name, result.book.tag, now, selectionBonus)
    {
      if subscription !in live {
        return NoCall;
      }
      live := live - {subscription};
      match result
      case SwitchFailed(message) =>
        call := ChangeSourceFinish(None, Some(message));
      case Switched(book, chapters) =>
        bookShelf := Some(book);
        chapterBeanList := chapters;
        call := ChangeSourceFinish(Some(book), None);
        var bookName := book.name;
        var tag := book.tag;
        var fetched := if tag in sources then Some(sources[tag]) else None;
        if savedSource.source.Some? {
          var copy := savedSource.source.value.copy;
          if PenaltyApplies(savedSource, bookName, now) {
            copy := copy.(weight := copy.weight - RepeatPenalty);
          }
          sources := sources[savedSource.source.value.url := copy];
        }
        if fetched.Some? {
          var chosen := fetched.value.(weight := fetched.value.weight + selectionBonus);
          savedSource := SavedSource(bookName, now, Some(SourceCopy(tag, chosen)));
          sources := sources[tag := chosen];
        } else {
          savedSource := SavedSource(bookName, now, None);
        }
    }

    /**
      `autoChangeSource`: the helper is created on first use; a result with a
      non-empty chapter list replaces book and chapters together, an empty list
      or an error leaves both as they were and tells the view null.
     */
    method AutoChangeSource(result: SwitchResult) returns (call: ViewCall)
      modifies this
      requires Valid()
      ensures Valid()
      ensures hasChangeSourceHelp
      ensures result.Switched? && result.chapters != [] ==>
        bookShelf == Some(result.book) && chapterBeanList == result.chapters
        && call == ChangeSourceFinish(Some(result.book), None)
      ensures result.Switched? && result.chapters == [] ==>
        bookShelf == old(bookShelf) && chapterBeanList == old(chapterBeanList)
        && call == ChangeSourceFinish(None, None)
      ensures result.SwitchFailed? ==>
        bookShelf == old(bookShelf) && chapterBeanList == old(chapterBeanList)
        && call == ChangeSourceFinish(None, Some(result.message))
      ensures live == old(live) && changeSourceDisposable == old(changeSourceDisposable)
      ensures nextSubscription == old(nextSubscription)
      ensures sources == old(sources) && savedSource == old(savedSource)
    {
      if !hasChangeSourceHelp {
        hasChangeSourceHelp := true;
      }
      match result
      case Switched(book, chapters) =>
        if chapters != [] {
          bookShelf := Some(book);
          chapterBeanList := chapters;
          call := ChangeSourceFinish(Some(book), None);
        } else {
          call := ChangeSourceFinish(None, None);
        }
      case SwitchFailed(message) =>
        call := ChangeSourceFinish(None, Some(message));
    }
  }

  /**
    A manual switch superseded by a newer one delivers nothing, even when its
    result arrives after the newer switch has finished and a third has started:
    subscription numbers are never reissued.
   */
  method SupersededSwitchIsIgnored(p: ReadBookPresenter, first: SearchBook, second: SearchBook, third: SearchBook,
                                   late: SwitchResult, result: SwitchResult, now: int) returns (lateCall: ViewCall)
    modifies p
    requires p.Valid() && p.bookShelf.Some?
    ensures lateCall == NoCall
  {
    var _, s1 := p.ChangeBookSource(first);
    var _, s2 := p.ChangeBookSource(second);
    var _ := p.DeliverChangeSource(s2, result, now);
    assert p.bookShelf.Some?;
    var _, s3 := p.ChangeBookSource(third);
    lateCall := p.DeliverChangeSource(s1, late, now);
  }
}
