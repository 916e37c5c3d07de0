/**
 * The perspective bar: the ordered list of perspective names, the one
 * currently selected, and the text typed into the "New perspective" box.
 */
module Perspectives {
  import opened Text

  const DefaultPerspective: string := "Default"

  datatype PerspectiveState = PerspectiveState(names: seq<string>, selected: string, draft: string)

  predicate NoDuplicates(s: seq<string>) {
    forall i, j :: 0 <= i < j < |s| ==> s[i] != s[j]
  }

  /** What the bar maintains: "Default" is listed, no name twice, and the selection is listed. */
  predicate Valid(st: PerspectiveState) {
    && DefaultPerspective in st.names
    && NoDuplicates(st.names)
    && st.selected in st.names
  }

  /** The bar as the screen first shows it. */
  function Initial(): (st: PerspectiveState)
    ensures Valid(st)
    ensures st.selected == DefaultPerspective && st.draft == ""
    ensures |st.names| == 4
  {
    var names := ["Default", "Efficiency", "Reliability", "Ease of Use"];
    assert names[2][0] != names[3][0];
    PerspectiveState(names, DefaultPerspective, "")
  }

  /** `s.filter(x => x !== p)`: every entry but those equal to `p`, in order. */
  function Without(s: seq<string>, p: string): (r: seq<string>)
    ensures forall x :: x in r <==> x in s && x != p
    ensures |r| <= |s|
    ensures NoDuplicates(s) ==> NoDuplicates(r)
  {
    if s == [] then []
    else if s[0] == p then Without(s[1..], p)
    else
      var rest := Without(s[1..], p);
      assert NoDuplicates(s) ==> NoDuplicates([s[0]] + rest) by {
        if NoDuplicates(s) {
          assert s[0] !in s[1..];
          assert NoDuplicates(s[1..]);
          var r := [s[0]] + rest;
          forall i, j | 0 <= i < j < |r| ensures r[i] != r[j] {
            if i == 0 { assert r[j] == rest[j - 1]; }
          }
        }
      }
      [s[0]] + rest
  }

  /** Filtering out a name the list does not hold changes nothing. */
  lemma {:induction false} WithoutAbsent(s: seq<string>, p: string)
    requires p !in s
    ensures Without(s, p) == s
  {
    if s != [] {
      WithoutAbsent(s[1..], p);
      assert s == [s[0]] + s[1..];
    }
  }

  /**
   * In a list without duplicates, filtering out the entry at `i` is deleting
   * position `i`: the other names keep their order.
   */
  lemma {:induction false} WithoutDeletesAt(s: seq<string>, i: nat)
    requires NoDuplicates(s) && i < |s|
    ensures Without(s, s[i]) == s[..i] + s[i + 1..]
  {
    if i == 0 {
      assert s[0] !in s[1..];
      WithoutAbsent(s[1..], s[0]);
    } else {
      assert s[1..][i - 1] == s[i];
      WithoutDeletesAt(s[1..], i - 1);
      assert s[1..][..i - 1] == s[1..i];
      assert s[1..][i..] == s[i + 1..];
      assert s[..i] == [s[0]] + s[1..i];
    }
  }

  /**
   * `addPerspective`: the trimmed draft is appended and the draft cleared
   * when it is non-empty and not yet listed; otherwise nothing changes.
   */
  function Add(st: PerspectiveState): (r: PerspectiveState)
    ensures r.selected == st.selected
    ensures r != st <==> Trim(st.draft) != "" && Trim(st.draft) !in st.names
    ensures r != st ==> r.names == st.names + [Trim(st.draft)] && r.draft == ""
    ensures Valid(st) ==> Valid(r)
  {
    var name := Trim(st.draft);
    if name != "" && name !in st.names then
      var names := st.names + [name];
      assert |names| != |st.names|;
      AppendFresh(st.names, name);
      st.(names := names, draft := "")
    else st
  }

  /** Appending an unlisted name keeps every listed name and adds no duplicate. */
  lemma AppendFresh(s: seq<string>, name: string)
    requires name !in s
    ensures forall x :: x in s ==> x in s + [name]
    ensures NoDuplicates(s) ==> NoDuplicates(s + [name])
  {
    var r := s + [name];
    if NoDuplicates(s) {
      forall i, j | 0 <= i < j < |r| ensures r[i] != r[j] {
        if j == |s| { assert r[i] == s[i]; }
      }
    }
  }

  /**
   * `removePerspective`: "Default" stays; any other name is filtered out,
   * and the selection falls back to "Default" exactly when it was the name
   * removed.
   */
  function Remove(st: PerspectiveState, p: string): (r: PerspectiveState)
    ensures p == DefaultPerspective ==> r == st
    ensures p != DefaultPerspective ==> forall x :: x in r.names <==> x in st.names && x != p
    ensures r.selected == (if p != DefaultPerspective && st.selected == p then DefaultPerspective else st.selected)
    ensures r.draft == st.draft
    ensures Valid(st) ==> Valid(r)
  {
    if p != DefaultPerspective then
      st.(names := Without(st.names, p),
          selected := if st.selected == p then DefaultPerspective else st.selected)
    else st
  }

  /** Removing a name keeps the other names in their order. */
  lemma RemoveKeepsOrder(st: PerspectiveState, i: nat)
    requires Valid(st) && i < |st.names| && st.names[i] != DefaultPerspective
    ensures Remove(st, st.names[i]).names == st.names[..i] + st.names[i + 1..]
  {
    WithoutDeletesAt(st.names, i);
  }

  /** The perspective picker: it offers only listed names. */
  function Select(st: PerspectiveState, p: string): (r: PerspectiveState)
    requires p in st.names
    ensures r.selected == p && r.names == st.names && r.draft == st.draft
    ensures Valid(st) ==> Valid(r)
  {
    st.(selected := p)
  }

  /** Typing into the "New perspective" box. */
  function SetDraft(st: PerspectiveState, text: string): (r: PerspectiveState)
    ensures r.draft == text && r.names == st.names && r.selected == st.selected
    ensures Valid(st) ==> Valid(r)
  {
    st.(draft := text)
  }

  /** Adding a perspective and then removing it restores the list and the selection. */
  lemma AddThenRemove(st: PerspectiveState)
    requires Valid(st)
    requires Trim(st.draft) != "" && Trim(st.draft) !in st.names
    ensures var r := Remove(Add(st), Trim(st.draft)); r.names == st.names && r.selected == st.selected
  {
    var name := Trim(st.draft);
    var s := st.names + [name];
    assert NoDuplicates(s);
    assert s[|st.names|] == name;
    WithoutDeletesAt(s, |st.names|);
    assert s[..|st.names|] == st.names;
    assert s[|st.names| + 1..] == [];
  }

  /** Adding is idempotent: a second click finds the draft cleared or the name listed. */
  lemma AddIdempotent(st: PerspectiveState)
    ensures Add(Add(st)) == Add(st)
  {
    if Add(st) != st {
      assert Trim("") == "" by { TrimExact([], [], []); }
    }
  }
}
