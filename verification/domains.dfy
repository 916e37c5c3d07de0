/**
 * Domain records and the data shaping the screen does on them: building the
 * creation payload, recovering the icon from the description, choosing what
 * to show under a perspective, and writing one particle of the edit draft.
 */
module Domains {
  import opened Wrappers
  import opened Text
  import opened DomainTypes
  import Perspectives

  /** Particle name to particle value. */
  type ParticleSet = map<string, string>

  /** Perspective name to the particles recorded under it. */
  type PerspectiveData = map<string, ParticleSet>

  const NotConfigured: string := "Not configured"
  const DefaultPerspective: string := Perspectives.DefaultPerspective

  /** A domain as the store returns it. */
  datatype Domain = Domain(id: string, domainName: string, description: string, perspectives: PerspectiveData)

  /** The object handed to the store's create call; the store assigns the id. */
  datatype CreatePayload = CreatePayload(domainName: string, description: string, perspectives: PerspectiveData)

  /**
   * Folds a list of particle names into a map sending each to "Not
   * configured", left to right, as the `reduce` in the create handler does.
   */
  function NotConfiguredMap(names: seq<string>): (m: ParticleSet)
    ensures m.Keys == set n | n in names
    ensures forall k :: k in m ==> m[k] == NotConfigured
  {
    if names == [] then map[]
    else NotConfiguredMap(names[..|names| - 1])[names[|names| - 1] := NotConfigured]
  }

  /** The description a domain of type `t` is created with. */
  function Description(t: DomainType): string {
    "A " + Name(t) + " domain"
  }

  /** The create payload for a draft named `name` whose type is `t`. */
  function BuildPayload(name: string, t: DomainType): (p: CreatePayload)
    ensures p.domainName == Trim(name)
    ensures p.description == Description(t)
    ensures p.perspectives.Keys == {DefaultPerspective}
    ensures p.perspectives[DefaultPerspective].Keys == set n | n in DefaultParticles(t)
    ensures forall k :: k in p.perspectives[DefaultPerspective] ==> p.perspectives[DefaultPerspective][k] == NotConfigured
  {
    CreatePayload(Trim(name), Description(t), map[DefaultPerspective := NotConfiguredMap(DefaultParticles(t))])
  }

  /** Every type's default perspective holds exactly its three particles. */
  lemma PayloadParticleCount(name: string, t: DomainType)
    ensures |BuildPayload(name, t).perspectives[DefaultPerspective]| == 3
  {
    DefaultParticleSetSize(t);
  }

  /** The worked example: an Exchange domain named "Acme". */
  lemma ExchangeExample()
    ensures var p := BuildPayload("Acme", Exchange);
      && p.domainName == "Acme"
      && p.description == "A Exchange domain"
      && p.perspectives == map["Default" := map["Payment Processing" := "Not configured",
                                               "Service Listing" := "Not configured",
                                               "Reviews" := "Not configured"]]
  {
    var e: string := [];
    assert e + "Acme" + e == "Acme";
    TrimExact(e, "Acme", e);
    ExchangeDescription();
    ExchangeDefaults();
  }

  /** The description of an Exchange domain, spelled out. */
  lemma ExchangeDescription()
    ensures Description(Exchange) == "A Exchange domain"
  {
    var a := "A " + "Exchange";
    assert forall i :: 0 <= i < 10 ==> a[i] == "A Exchange"[i];
    assert a == "A Exchange";
    var b := a + " domain";
    assert forall i :: 0 <= i < 17 ==> b[i] == "A Exchange domain"[i];
  }

  /** The Exchange particles, each "Not configured", in the shape the fold builds. */
  lemma ExchangeDefaults()
    ensures NotConfiguredMap(DefaultParticles(Exchange))
         == map["Payment Processing" := "Not configured", "Service Listing" := "Not configured",
                "Reviews" := "Not configured"]
  {
    var ps := DefaultParticles(Exchange);
    assert ps[..2][..1][..0] == [];
    assert NotConfiguredMap(ps[..1]) == map[ps[0] := NotConfigured];
    assert NotConfiguredMap(ps[..2]) == map[ps[0] := NotConfigured, ps[1] := NotConfigured];
  }

  /**
   * The icon drawn for a domain: the second space-separated token of its
   * description, matched against the type names, with Globe when there is no
   * such token or it names no type.
   */
  function IconFor(description: string): (i: Icon)
    ensures i != Globe <==> |Split(description, ' ')| >= 2 && FindType(Split(description, ' ')[1]).Some?
    ensures i != Globe ==> i == IconOf(FindType(Split(description, ' ')[1]).value)
  {
    var tokens := Split(description, ' ');
    if |tokens| < 2 then Globe
    else match FindType(tokens[1])
      case Some(t) => IconOf(t)
      case None => Globe
  }

  /**
   * A word between the first and the second space of a string is its second
   * token, whatever follows.
   */
  lemma SecondToken(first: string, word: string, rest: string)
    requires ' ' !in first && ' ' !in word
    requires rest == [] || rest[0] == ' '
    ensures var tokens := Split(first + [' '] + word + rest, ' '); |tokens| >= 2 && tokens[1] == word
  {
    var v := word + rest;
    FirstToken(word, rest);
    AfterFirstSpace(first, v);
    assert first + [' '] + word + rest == first + [' '] + v;
  }

  /** The tokens after the first space are the tokens of what follows it. */
  lemma AfterFirstSpace(first: string, v: string)
    requires ' ' !in first
    ensures Split(first + [' '] + v, ' ') == [first] + Split(v, ' ')
  {
    var u := [' '] + v;
    SplitAfterSeparator(v);
    assert first + [' '] + v == first + u;
    SplitPrefix(first, u, ' ');
    assert first + [] == first;
  }

  /** A word followed by nothing or by a space is the first token. */
  lemma FirstToken(word: string, rest: string)
    requires ' ' !in word
    requires rest == [] || rest[0] == ' '
    ensures Split(word + rest, ' ')[0] == word
  {
    if rest != [] {
      assert rest == [' '] + rest[1..];
      SplitAfterSeparator(rest[1..]);
    }
    SplitPrefix(word, rest, ' ');
    assert word + [] == word;
  }

  /** A leading space contributes an empty first token. */
  lemma SplitAfterSeparator(t: string)
    ensures Split([' '] + t, ' ') == [[]] + Split(t, ' ')
  {
    var u := [' '] + t;
    assert u[0] == ' ' && u[1..] == t;
  }

  /** The icon recovered from a created domain's description is its type's icon. */
  lemma IconRoundTrip(t: DomainType)
    ensures IconFor(Description(t)) == IconOf(t)
  {
    NameHasNoSpace(t);
    assert ' ' !in "A";
    var rest := " domain";
    assert Description(t) == "A" + [' '] + Name(t) + rest;
    SecondToken("A", Name(t), rest);
    FindTypeName(t);
  }

  /** A description whose second word names no type is drawn with the globe. */
  lemma IconUnknownWord(first: string, word: string, rest: string)
    requires ' ' !in first && ' ' !in word
    requires rest == [] || rest[0] == ' '
    requires forall t :: Name(t) != word
    ensures IconFor(first + [' '] + word + rest) == Globe
  {
    SecondToken(first, word, rest);
  }

  /** A description without a space has no second token and is drawn with the globe. */
  lemma IconSingleWord(description: string)
    requires ' ' !in description
    ensures IconFor(description) == Globe
  {
    SplitPrefix(description, [], ' ');
    assert description + [] == description;
  }

  /**
   * The particles listed for `d` under the selected perspective, or None when
   * the screen shows "No data available" instead.
   */
  function Shown(d: Domain, selected: string): (r: Option<ParticleSet>)
    ensures r.Some? <==> selected in d.perspectives
    ensures r.Some? ==> r.value == d.perspectives[selected]
  {
    if selected in d.perspectives then Some(d.perspectives[selected]) else None
  }

  /** The record the store holds after creating `p` under the id `id`. */
  function Stored(id: string, p: CreatePayload): Domain
  {
    Domain(id, p.domainName, p.description, p.perspectives)
  }

  /**
   * A freshly created domain has data only under "Default", where every
   * particle of its type reads "Not configured"; every other perspective
   * shows "No data available".
   */
  lemma FreshDomainShowsOnlyDefault(id: string, name: string, t: DomainType, selected: string)
    ensures var r := Shown(Stored(id, BuildPayload(name, t)), selected);
      && (r.Some? <==> selected == DefaultPerspective)
      && (r.Some? ==> r.value.Keys == set n | n in DefaultParticles(t))
      && (r.Some? ==> forall k :: k in r.value ==> r.value[k] == NotConfigured)
  {
  }

  /**
   * The edit-field handler: writes `value` under `particle` in the draft's
   * `selected` perspective, creating that perspective's map when it is
   * missing. With no draft open the handler fails and nothing changes.
   */
  function EditField(draft: Option<Domain>, selected: string, particle: string, value: string): (r: Option<Domain>)
    ensures r.Some? <==> draft.Some?
    ensures r.Some? ==>
      var d, e := draft.value, r.value;
      && e.id == d.id && e.domainName == d.domainName && e.description == d.description
      && e.perspectives.Keys == d.perspectives.Keys + {selected}
      && (forall q :: q in d.perspectives && q != selected ==> e.perspectives[q] == d.perspectives[q])
      && particle in e.perspectives[selected] && e.perspectives[selected][particle] == value
      && (selected in d.perspectives ==> e.perspectives[selected].Keys == d.perspectives[selected].Keys + {particle})
      && (selected !in d.perspectives ==> e.perspectives[selected].Keys == {particle})
      && (forall k :: selected in d.perspectives && k in d.perspectives[selected] && k != particle ==>
            e.perspectives[selected][k] == d.perspectives[selected][k])
  {
    match draft
    case None => None
    case Some(d) =>
      var branch := if selected in d.perspectives then d.perspectives[selected] else map[];
      Some(d.(perspectives := d.perspectives[selected := branch[particle := value]]))
  }

  /**
   * The value the edit input shows for `particle`: the draft's value when
   * there is one, the empty string otherwise.
   */
  function DraftValue(draft: Option<Domain>, selected: string, particle: string): string {
    if draft.Some? && selected in draft.value.perspectives && particle in draft.value.perspectives[selected]
    then draft.value.perspectives[selected][particle]
    else ""
  }

  /** The draft after typing each `(particle, value)` of `edits` in turn under `selected`. */
  function ApplyEdits(draft: Option<Domain>, selected: string, edits: seq<(string, string)>): Option<Domain>
    decreases |edits|
  {
    if edits == [] then draft
    else ApplyEdits(EditField(draft, selected, edits[0].0, edits[0].1), selected, edits[1..])
  }

  /** Typing keeps an open draft open and never changes whose record it is. */
  lemma {:induction false} EditsKeepRecord(d: Domain, selected: string, edits: seq<(string, string)>)
    ensures var r := ApplyEdits(Some(d), selected, edits); r.Some? && r.value.id == d.id
    decreases |edits|
  {
    if edits != [] {
      var next := EditField(Some(d), selected, edits[0].0, edits[0].1);
      EditsKeepRecord(next.value, selected, edits[1..]);
    }
  }

  /** The input reads back what was just typed into it. */
  lemma EditReadBack(d: Domain, selected: string, particle: string, value: string)
    ensures DraftValue(EditField(Some(d), selected, particle, value), selected, particle) == value
  {
  }

  /** Typing into one input leaves every other input's value as it was. */
  lemma EditLeavesOthers(draft: Option<Domain>, selected: string, particle: string, value: string, q: string, k: string)
    requires q != selected || k != particle
    ensures DraftValue(EditField(draft, selected, particle, value), q, k) == DraftValue(draft, q, k)
  {
  }

  /** Only the last of two writes to the same input survives. */
  lemma EditLastWriteWins(draft: Option<Domain>, selected: string, particle: string, a: string, b: string)
    ensures EditField(EditField(draft, selected, particle, a), selected, particle, b)
         == EditField(draft, selected, particle, b)
  {
    if draft.Some? {
      var d := draft.value;
      var once := EditField(draft, selected, particle, b).value;
      var twice := EditField(EditField(draft, selected, particle, a), selected, particle, b).value;
      assert twice.perspectives[selected] == once.perspectives[selected];
      assert twice.perspectives == once.perspectives;
    }
  }
}
