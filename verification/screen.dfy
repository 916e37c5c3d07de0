/**
 * The Domain Navigator screen as a state machine: the local state it keeps,
 * the store calls and notifications each user action produces, and the
 * invariant every reachable state satisfies. Store results arrive as an
 * `Outcome` parameter.
 */
module Screen {
  import opened Wrappers
  import opened Text
  import opened DomainTypes
  import opened Domains
  import Perspectives

  /** What the "Add New Domain" form holds; `typeName` is "" until a type is picked. */
  datatype NewDomainDraft = NewDomainDraft(name: string, typeName: string)

  const EmptyDraft: NewDomainDraft := NewDomainDraft("", "")

  /** All local state of the screen. `editing` is the edit dialog's working copy. */
  datatype View = View(newDomain: NewDomainDraft, lens: Perspectives.PerspectiveState, editing: Option<Domain>)

  /** How the store answered a create or update call. */
  datatype Outcome = Succeeded | Failed

  /** The variant of the toast shown after a store call; its wording is not modelled. */
  datatype Notice = Confirmation | Destructive

  /**
   * A call to the store. `Update` carries the id the request goes out with and
   * the fields spread after it.
   */
  datatype StoreCall = Create(payload: CreatePayload) | Update(id: string, fields: Option<Domain>)

  /** The state after an action together with the effects it had. */
  datatype Transition = Transition(view: View, calls: seq<StoreCall>, notices: seq<Notice>)

  /** The screen's state when it first appears. */
  function InitialView(): (v: View)
    ensures Inv(v)
    ensures v.newDomain == EmptyDraft && v.editing == None
    ensures v.lens.selected == Perspectives.DefaultPerspective
  {
    View(EmptyDraft, Perspectives.Initial(), None)
  }

  /** What every reachable state satisfies. */
  predicate Inv(v: View) {
    && Perspectives.Valid(v.lens)
    && (v.newDomain.typeName == "" || FindType(v.newDomain.typeName).Some?)
  }

  /** True when the create handler goes past its guard. */
  predicate DraftFilled(d: NewDomainDraft) {
    Trim(d.name) != "" && d.typeName != ""
  }

  /**
   * The "Add Domain" click. With an empty trimmed name or no type nothing
   * happens. A type with no default particle table makes building the payload
   * fail before the store is called, which is reported as an error. Otherwise
   * the store is asked to create the payload; on success the form is cleared,
   * on failure it keeps what was typed.
   */
  function AddDomain(v: View, outcome: Outcome): (t: Transition)
    ensures t.view.lens == v.lens && t.view.editing == v.editing
    ensures !DraftFilled(v.newDomain) ==> t.view == v && t.calls == [] && t.notices == []
    ensures DraftFilled(v.newDomain) && FindType(v.newDomain.typeName).None? ==>
      t.view == v && t.calls == [] && t.notices == [Destructive]
    ensures DraftFilled(v.newDomain) && FindType(v.newDomain.typeName).Some? ==>
      && t.calls == [Create(BuildPayload(v.newDomain.name, FindType(v.newDomain.typeName).value))]
      && (outcome == Succeeded ==> t.view.newDomain == EmptyDraft && t.notices == [Confirmation])
      && (outcome == Failed ==> t.view == v && t.notices == [Destructive])
  {
    var draft := v.newDomain;
    if !DraftFilled(draft) then Transition(v, [], [])
    else match FindType(draft.typeName)
      case None => Transition(v, [], [Destructive])
      case Some(ty) => Submit(v, ty, outcome)
  }

  /** The create call for a filled form of type `ty`, and what its outcome does to the form. */
  function Submit(v: View, ty: DomainType, outcome: Outcome): (t: Transition)
    ensures t.calls == [Create(BuildPayload(v.newDomain.name, ty))]
    ensures t.view.lens == v.lens && t.view.editing == v.editing
    ensures outcome == Succeeded ==> t.view.newDomain == EmptyDraft && t.notices == [Confirmation]
    ensures outcome == Failed ==> t.view == v && t.notices == [Destructive]
  {
    var call := Create(BuildPayload(v.newDomain.name, ty));
    match outcome
    case Succeeded => Transition(v.(newDomain := EmptyDraft), [call], [Confirmation])
    case Failed => Transition(v, [call], [Destructive])
  }

  /**
   * The store is called, once, exactly when the trimmed name is non-empty and
   * the type has a default particle table; the form changes exactly when that
   * call succeeds.
   */
  lemma AddDomainCallsExactly(v: View, outcome: Outcome)
    ensures var t := AddDomain(v, outcome);
      && |t.calls| <= 1
      && (|t.calls| == 1 <==> Trim(v.newDomain.name) != "" && FindType(v.newDomain.typeName).Some?)
      && (t.view != v <==> |t.calls| == 1 && outcome == Succeeded)
  {
    var d := v.newDomain;
    var t := AddDomain(v, outcome);
    match FindType(d.typeName)
    case None =>
    case Some(ty) =>
      assert d.typeName == Name(ty);
      assert d.typeName != "";
      if DraftFilled(d) && outcome == Succeeded {
        assert t.view.newDomain.typeName != d.typeName;
      }
  }

  /** In a reachable state the create handler never fails before calling the store. */
  lemma AddDomainCallsStoreWhenFilled(v: View, outcome: Outcome)
    requires Inv(v) && DraftFilled(v.newDomain)
    ensures |AddDomain(v, outcome).calls| == 1
  {
  }

  /** Every payload the store receives has a non-empty name and a type's description. */
  lemma CreatePayloadWellFormed(v: View, outcome: Outcome)
    requires |AddDomain(v, outcome).calls| == 1
    ensures var p := AddDomain(v, outcome).calls[0].payload;
      && p.domainName != "" && Trimmed(p.domainName)
      && exists ty :: p.description == Description(ty) && IconFor(p.description) == IconOf(ty)
  {
    var ty := FindType(v.newDomain.typeName).value;
    IconRoundTrip(ty);
  }

  /** The request `{ id, ...draft }`: a field of the draft overrides the id argument. */
  function UpdateRequest(id: string, draft: Option<Domain>): (c: StoreCall)
    ensures c.Update? && c.fields == draft
    ensures c.id == (if draft.Some? then draft.value.id else id)
  {
    Update(if draft.Some? then draft.value.id else id, draft)
  }

  /**
   * After the Edit click opens `d` and any number of fields are typed, the
   * save request goes out for `d`, whatever id the dialog passes along.
   */
  lemma SaveTargetsOpenedRecord(d: Domain, selected: string, edits: seq<(string, string)>, id: string)
    ensures UpdateRequest(id, ApplyEdits(Some(d), selected, edits)).id == d.id
  {
    EditsKeepRecord(d, selected, edits);
  }

  /**
   * The "Save Changes" click as the handler is written: the toast after a
   * successful store call reads the draft's name, which fails when no draft is
   * open, and that failure is reported as a failed update.
   */
  function UpdateDomainAsWritten(v: View, id: string, outcome: Outcome): (t: Transition)
    ensures t.calls == [UpdateRequest(id, v.editing)]
    ensures t.view == (if outcome == Succeeded then v.(editing := None) else v)
    ensures t.notices == (if outcome == Succeeded && v.editing.Some? then [Confirmation] else [Destructive])
  {
    var call := UpdateRequest(id, v.editing);
    match outcome
    case Succeeded =>
      if v.editing.Some? then Transition(v.(editing := None), [call], [Confirmation])
      else Transition(v.(editing := None), [call], [Destructive])
    case Failed => Transition(v, [call], [Destructive])
  }

  /** Saving with no draft open: the store accepts the update, yet the screen reports failure. */
  lemma UpdateAsWrittenMisreports(v: View, id: string)
    requires v.editing.None?
    ensures var t := UpdateDomainAsWritten(v, id, Succeeded);
      t.calls == [Update(id, None)] && t.notices == [Destructive]
  {
  }

  /**
   * The "Save Changes" click with the notification following the store's
   * answer: on success the draft is closed and a confirmation shown; on
   * failure the draft is kept and an error shown.
   */
  function UpdateDomain(v: View, id: string, outcome: Outcome): (t: Transition)
    ensures t.calls == [UpdateRequest(id, v.editing)]
    ensures t.view.newDomain == v.newDomain && t.view.lens == v.lens
    ensures outcome == Succeeded ==> t.view.editing == None
    ensures outcome == Failed ==> t.view == v
    ensures t.notices == [Confirmation] <==> outcome == Succeeded
    ensures t.notices == [Destructive] <==> outcome == Failed
  {
    var call := UpdateRequest(id, v.editing);
    match outcome
    case Succeeded => Transition(v.(editing := None), [call], [Confirmation])
    case Failed => Transition(v, [call], [Destructive])
  }

  /** Where a draft is open the corrected handler and the written one agree. */
  lemma UpdateAgreesWithDraftOpen(v: View, id: string, outcome: Outcome)
    requires v.editing.Some?
    ensures UpdateDomain(v, id, outcome) == UpdateDomainAsWritten(v, id, outcome)
  {
  }

  /** One user action on the screen. */
  datatype Event =
    | NameTyped(text: string)
    | TypePicked(typeName: string)
    | AddDomainClicked(createOutcome: Outcome)
    | PerspectiveTyped(text: string)
    | AddPerspectiveClicked
    | RemovePerspectiveClicked(name: string)
    | PerspectivePicked(name: string)
    | EditClicked(domain: Domain)
    | FieldEdited(particle: string, value: string)
    | SaveClicked(id: string, updateOutcome: Outcome)

  /**
   * The actions the widgets can produce in `v`: the type picker offers the
   * four type names, the perspective picker the listed names, and a remove
   * button sits next to every listed name except "Default".
   */
  predicate Enabled(v: View, e: Event) {
    match e
    case TypePicked(n) => FindType(n).Some?
    case RemovePerspectiveClicked(n) => n in v.lens.names && n != Perspectives.DefaultPerspective
    case PerspectivePicked(n) => n in v.lens.names
    case _ => true
  }

  function Step(v: View, e: Event): (t: Transition)
    requires Enabled(v, e)
    ensures Inv(v) ==> Inv(t.view)
  {
    match e
    case NameTyped(text) => Transition(v.(newDomain := v.newDomain.(name := text)), [], [])
    case TypePicked(n) => Transition(v.(newDomain := v.newDomain.(typeName := n)), [], [])
    case AddDomainClicked(o) => AddDomain(v, o)
    case PerspectiveTyped(text) => Transition(v.(lens := Perspectives.SetDraft(v.lens, text)), [], [])
    case AddPerspectiveClicked => Transition(v.(lens := Perspectives.Add(v.lens)), [], [])
    case RemovePerspectiveClicked(n) => Transition(v.(lens := Perspectives.Remove(v.lens, n)), [], [])
    case PerspectivePicked(n) => Transition(v.(lens := Perspectives.Select(v.lens, n)), [], [])
    case EditClicked(d) => Transition(v.(editing := Some(d)), [], [])
    case FieldEdited(particle, value) =>
      Transition(v.(editing := EditField(v.editing, v.lens.selected, particle, value)), [], [])
    case SaveClicked(id, o) => UpdateDomain(v, id, o)
  }

  /** True when every action of `es` is one the widgets can produce at its turn. */
  predicate Feasible(v: View, es: seq<Event>)
    decreases |es|
  {
    es == [] || (Enabled(v, es[0]) && Feasible(Step(v, es[0]).view, es[1..]))
  }

  /** The state after the actions `es`, taken in order from `v`. */
  function Run(v: View, es: seq<Event>): View
    requires Feasible(v, es)
    decreases |es|
  {
    if es == [] then v else Run(Step(v, es[0]).view, es[1..])
  }

  /** Every sequence of actions keeps the invariant. */
  lemma {:induction false} RunPreservesInv(v: View, es: seq<Event>)
    requires Inv(v) && Feasible(v, es)
    ensures Inv(Run(v, es))
    decreases |es|
  {
    if es != [] {
      RunPreservesInv(Step(v, es[0]).view, es[1..]);
    }
  }

  /**
   * In every state the screen can reach, "Default" is listed, no perspective
   * is listed twice, and the selected perspective is listed.
   */
  lemma ReachableStatesValid(es: seq<Event>)
    requires Feasible(InitialView(), es)
    ensures var v := Run(InitialView(), es);
      && Perspectives.DefaultPerspective in v.lens.names
      && Perspectives.NoDuplicates(v.lens.names)
      && v.lens.selected in v.lens.names
  {
    RunPreservesInv(InitialView(), es);
  }
}
