/**
 * The caption editor's state record and its reducer-style handlers.
 *
 * Every handler of the editor form returns a fresh record that differs from
 * the previous one in exactly one field.  `Math.random()` is replaced by a
 * caller-supplied real `r` with `0 <= r < 1`, and the template catalog that
 * the component fetches at mount is a given sequence of templates.
 */
module MemeEditor {

  datatype Result<+T, +E> = Ok(value: T) | Err(error: E)

  /** The editor's single state record. */
  datatype MemeState = MemeState(
    topText: string,
    bottomText: string,
    randomImage: string,
    fontSize: int)

  /** One entry of the template catalog; only its URL is used. */
  datatype Template = Template(url: string)

  /** Why a handler can fail. */
  datatype EditorError = EmptyCatalog

  const PlaceholderImage: string := "https://i.imgflip.com/39t1o.jpg"
  const DefaultFontSize: int := 40
  /** The amount by which one button press changes the font size. */
  const FontStep: int := 10
  /** The smallest font size "Decrease Font Size" can produce. */
  const MinFontSize: int := 10

  /** The record the component starts with. */
  function Initial(): (s: MemeState)
    ensures s.topText == [] && s.bottomText == []
    ensures s.randomImage == PlaceholderImage
    ensures s.fontSize == DefaultFontSize
    ensures FontSizeValid(s)
  {
    MemeState("", "", PlaceholderImage, DefaultFontSize)
  }

  /** The invariant every reachable record keeps: the font size is a
      multiple of the step and never below the floor. */
  predicate FontSizeValid(s: MemeState) {
    s.fontSize >= MinFontSize && s.fontSize % FontStep == 0
  }

  /** The names of the two text inputs bound to the change handler. */
  predicate IsInputName(name: string) {
    name == "topText" || name == "bottomText"
  }

  /** The text field that an input name addresses. */
  function TextField(s: MemeState, name: string): string
    requires IsInputName(name)
  {
    if name == "topText" then s.topText else s.bottomText
  }

  /** The change handler of both text inputs: the field named by the
      input is set to the input's value, verbatim. */
  function HandleChange(s: MemeState, name: string, value: string): (r: MemeState)
    requires IsInputName(name)
    ensures TextField(r, name) == value
    ensures forall other :: IsInputName(other) && other != name ==>
              TextField(r, other) == TextField(s, other)
    ensures r.randomImage == s.randomImage && r.fontSize == s.fontSize
  {
    if name == "topText" then s.(topText := value) else s.(bottomText := value)
  }

  /** `Math.floor(r * n)`: the catalog index drawn for a random `r`. */
  function RandomIndex(r: real, n: nat): (k: int)
    requires 0.0 <= r < 1.0 && n > 0
    ensures 0 <= k < n
    ensures k as real <= r * n as real < k as real + 1.0
  {
    assert r * n as real < n as real by {
      assert (1.0 - r) * n as real > 0.0;
    }
    (r * n as real).Floor
  }

  /** The set of URLs a catalog offers. */
  function Urls(catalog: seq<Template>): set<string> {
    set t | t in catalog :: t.url
  }

  /** "Get a new meme image": show the URL of a randomly chosen catalog
      entry.  On an empty catalog the entry is undefined and reading its
      URL throws before the state is touched. */
  function GetMemeImage(s: MemeState, catalog: seq<Template>, r: real): (res: Result<MemeState, EditorError>)
    requires 0.0 <= r < 1.0
    ensures res.Err? <==> catalog == []
    ensures res.Err? ==> res.error == EmptyCatalog
    ensures res.Ok? ==> res.value.randomImage in Urls(catalog)
    ensures res.Ok? ==> res.value.randomImage == catalog[RandomIndex(r, |catalog|)].url
    ensures res.Ok? ==> res.value == s.(randomImage := res.value.randomImage)
  {
    if |catalog| == 0 then Err(EmptyCatalog)
    else
      var k := RandomIndex(r, |catalog|);
      Ok(s.(randomImage := catalog[k].url))
  }

  /** "Increase Font Size": ten pixels more, with no upper bound. */
  function IncreaseFontSize(s: MemeState): (r: MemeState)
    ensures r.fontSize > s.fontSize
    ensures r.fontSize - s.fontSize == FontStep
    ensures r.topText == s.topText && r.bottomText == s.bottomText && r.randomImage == s.randomImage
    ensures FontSizeValid(s) ==> FontSizeValid(r)
  {
    s.(fontSize := s.fontSize + FontStep)
  }

  /** `Math.max` on integers. */
  function Max(a: int, b: int): int {
    if a >= b then a else b
  }

  /** "Decrease Font Size": ten pixels less, but never below the floor. */
  function DecreaseFontSize(s: MemeState): (r: MemeState)
    ensures r.fontSize >= MinFontSize
    ensures r.fontSize <= s.fontSize || s.fontSize < MinFontSize
    ensures s.fontSize - FontStep >= MinFontSize ==> r.fontSize == s.fontSize - FontStep
    ensures s.fontSize <= MinFontSize + FontStep ==> r.fontSize == MinFontSize
    ensures r.topText == s.topText && r.bottomText == s.bottomText && r.randomImage == s.randomImage
    ensures FontSizeValid(s) ==> FontSizeValid(r)
  {
    s.(fontSize := Max(MinFontSize, s.fontSize - FontStep))
  }

  /** A press of the decrease button undoes a press of the increase
      button, from any record that keeps the floor. */
  lemma DecreaseUndoesIncrease(s: MemeState)
    requires s.fontSize >= MinFontSize
    ensures DecreaseFontSize(IncreaseFontSize(s)) == s
  {
  }

  /** An increase undoes a decrease exactly when the decrease was not
      clamped at the floor. */
  lemma IncreaseUndoesDecrease(s: MemeState)
    ensures IncreaseFontSize(DecreaseFontSize(s)) == s <==> s.fontSize >= MinFontSize + FontStep
  {
  }

  /** Each catalog entry can be shown: for the entry at index `k` of a
      catalog of `n` entries, the random number `k / n` selects it. */
  lemma EveryTemplateReachable(s: MemeState, catalog: seq<Template>, t: Template)
    requires t in catalog
    ensures exists r: real :: 0.0 <= r < 1.0 && GetMemeImage(s, catalog, r) == Ok(s.(randomImage := t.url))
  {
    var k :| 0 <= k < |catalog| && catalog[k] == t;
    var n := |catalog| as real;
    var r := k as real / n;
    assert r * n == k as real;
    assert RandomIndex(r, |catalog|) == k;
    assert GetMemeImage(s, catalog, r) == Ok(s.(randomImage := t.url));
  }

  /** A one-entry catalog always yields that entry's URL. */
  lemma SingleTemplateAlwaysChosen(s: MemeState, url: string, r: real)
    requires 0.0 <= r < 1.0
    ensures GetMemeImage(s, [Template(url)], r) == Ok(s.(randomImage := url))
  {
  }

  /** The user actions of the editor form, each bound to one handler. */
  datatype Event =
    | Change(name: string, value: string)
    | NewImage(r: real)
    | Increase
    | Decrease

  /** What the form can actually deliver: only the two inputs fire change
      events, and the random number lies in [0, 1). */
  predicate EventValid(e: Event) {
    match e
    case Change(name, _) => IsInputName(name)
    case NewImage(r) => 0.0 <= r < 1.0
    case _ => true
  }

  /** Dispatch of one event to its handler.  A handler that throws leaves
      the record as it was. */
  function Step(s: MemeState, catalog: seq<Template>, e: Event): (r: MemeState)
    requires EventValid(e)
    ensures r.randomImage == s.randomImage || r.randomImage in Urls(catalog)
    ensures FontSizeValid(s) ==> FontSizeValid(r)
  {
    match e
    case Change(name, value) => HandleChange(s, name, value)
    case NewImage(r) =>
      (match GetMemeImage(s, catalog, r)
       case Ok(t) => t
       case Err(_) => s)
    case Increase => IncreaseFontSize(s)
    case Decrease => DecreaseFontSize(s)
  }

  /** The record after a whole session of events. */
  function Run(s: MemeState, catalog: seq<Template>, events: seq<Event>): MemeState
    requires forall i :: 0 <= i < |events| ==> EventValid(events[i])
    decreases |events|
  {
    if events == [] then s
    else Run(Step(s, catalog, events[0]), catalog, events[1..])
  }

  /** Every session that starts from a record keeping the font-size
      invariant keeps it. */
  lemma {:induction false} RunKeepsFontSizeValid(s: MemeState, catalog: seq<Template>, events: seq<Event>)
    requires forall i :: 0 <= i < |events| ==> EventValid(events[i])
    requires FontSizeValid(s)
    ensures FontSizeValid(Run(s, catalog, events))
    decreases |events|
  {
    if events != [] {
      RunKeepsFontSizeValid(Step(s, catalog, events[0]), catalog, events[1..]);
    }
  }

  /** The image shown after any session is the one shown before it or the
      URL of some catalog entry. */
  lemma {:induction false} RunImageFromCatalog(s: MemeState, catalog: seq<Template>, events: seq<Event>)
    requires forall i :: 0 <= i < |events| ==> EventValid(events[i])
    ensures var t := Run(s, catalog, events);
            t.randomImage == s.randomImage || t.randomImage in Urls(catalog)
    decreases |events|
  {
    if events != [] {
      var s' := Step(s, catalog, events[0]);
      RunImageFromCatalog(s', catalog, events[1..]);
    }
  }

  /** From the initial record, no session ever shows a font size below ten
      pixels, and the image is the placeholder or a catalog URL. */
  lemma ReachableStates(catalog: seq<Template>, events: seq<Event>)
    requires forall i :: 0 <= i < |events| ==> EventValid(events[i])
    ensures Run(Initial(), catalog, events).fontSize >= MinFontSize
    ensures Run(Initial(), catalog, events).fontSize % FontStep == 0
    ensures var t := Run(Initial(), catalog, events);
            t.randomImage == PlaceholderImage || t.randomImage in Urls(catalog)
  {
    RunKeepsFontSizeValid(Initial(), catalog, events);
    RunImageFromCatalog(Initial(), catalog, events);
  }

  /** Typing twice into the same input keeps only the last value. */
  lemma {:induction false} LastChangeWins(s: MemeState, name: string, v1: string, v2: string)
    requires IsInputName(name)
    ensures HandleChange(HandleChange(s, name, v1), name, v2) == HandleChange(s, name, v2)
  {
  }
}
