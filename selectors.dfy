/** The selection prompts in the page and their navigate handlers.

    Every prompt is a `div` appended to the end of the page body, holding a
    dropdown with id `locationSelect` and a button with id `navigateButton`.
    The page is modelled as the sequence of open prompts in document order;
    `listeners` lists the prompts whose navigate handlers are registered on
    a prompt's button, in registration order. */
module Selectors {

  import opened Wrappers
  import opened Layers
  import opened Places

  datatype Selector = Selector(id: nat, amenity: string, options: seq<PlaceOption>, choice: nat, listeners: seq<nat>)

  /** The dropdown has a selected entry (the first one until the user picks). */
  predicate WellFormed(s: Selector)
  {
    s.choice < |s.options|
  }

  ghost predicate AllWellFormed(page: seq<Selector>)
  {
    forall i :: 0 <= i < |page| ==> WellFormed(page[i])
  }

  /** The position the dropdown's current value names. */
  function Selected(s: Selector): Coord
    requires WellFormed(s)
  {
    s.options[s.choice].value
  }

  /** The page after `removeChild` of the prompt with this id. */
  function RemoveId(page: seq<Selector>, id: nat): (r: seq<Selector>)
    ensures forall s :: s in r <==> s in page && s.id != id
    ensures AllWellFormed(page) ==> AllWellFormed(r)
  {
    if page == [] then []
    else if page[0].id == id then RemoveId(page[1..], id)
    else [page[0]] + RemoveId(page[1..], id)
  }

  // ----- As written ---------------------------------------------------------

  /** `showLocationSelector` as written: the prompt goes to the end of the
      page, and its handler is registered on `getElementById("navigateButton")`,
      which is the button of the FIRST prompt in the page. */
  function ShowAsWritten(page: seq<Selector>, s: Selector): (r: seq<Selector>)
    ensures |r| == |page| + 1 && r[|page|].id == s.id
    ensures r[0].listeners == (page + [s])[0].listeners + [s.id]
    ensures r[0] == (page + [s])[0].(listeners := r[0].listeners)
    ensures forall i :: 0 < i <= |page| ==> r[i] == (page + [s])[i]
  {
    var p := page + [s];
    p[0 := p[0].(listeners := p[0].listeners + [s.id])]
  }

  /** Runs handlers in registration order. Handler `h` as written reads
      `getElementById("locationSelect")`, the FIRST prompt's dropdown (a
      TypeError when no prompt is left), asks for a route to its value and
      removes prompt `h`. The result is the destinations asked for and the
      page afterwards. */
  function RunAsWritten(page: seq<Selector>, handlers: seq<nat>): (seq<Coord>, seq<Selector>)
    requires AllWellFormed(page)
    decreases |handlers|
  {
    if handlers == [] then ([], page)
    else if page == [] then RunAsWritten(page, handlers[1..])
    else
      var rest := RunAsWritten(RemoveId(page, handlers[0]), handlers[1..]);
      ([Selected(page[0])] + rest.0, rest.1)
  }

  /** A click on the navigate button of the `k`-th prompt, as written. */
  function ClickAsWritten(page: seq<Selector>, k: nat): (seq<Coord>, seq<Selector>)
    requires AllWellFormed(page) && k < |page|
  {
    RunAsWritten(page, page[k].listeners)
  }

  /** With two prompts open (two searches that both found places), the
      second prompt's button does nothing, and the first one's asks for two
      routes, one per prompt, and closes both. */
  lemma TwoPromptsAsWritten(a: Selector, b: Selector)
    requires WellFormed(a) && WellFormed(b)
    requires a.id != b.id && a.listeners == [] && b.listeners == []
    ensures var page := ShowAsWritten(ShowAsWritten([], a), b);
            && ClickAsWritten(page, 1) == ([], page)
            && ClickAsWritten(page, 0) == ([Selected(a), Selected(b)], [])
  {
    var first := ShowAsWritten([], a);
    assert first[0] == a.(listeners := [a.id]);
    assert first == [a.(listeners := [a.id])];
    var page := ShowAsWritten(first, b);
    var a' := a.(listeners := [a.id, b.id]);
    assert page[0] == a';
    assert page == [a', b];
    assert [a', b][1..] == [b] && [b][1..] == [];
    assert RemoveId([], a.id) == [] && RemoveId([], b.id) == [];
    assert RemoveId([b], a.id) == [b];
    assert RemoveId([b], b.id) == [];
    assert RemoveId([a', b], a.id) == [b];
    assert [a.id, b.id][1..] == [b.id] && [b.id][1..] == [];
    assert AllWellFormed([b]) && AllWellFormed([]);
    var none := RunAsWritten([], []);
    assert none == ([], []);
    var last := RunAsWritten([b], [b.id]);
    assert last.0 == [Selected(b)] + none.0 && last.1 == [];
    assert last.0 == [Selected(b)];
    assert last == ([Selected(b)], []);
    assert AllWellFormed(page) && Selected(a') == Selected(a);
    var both := RunAsWritten(page, [a.id, b.id]);
    assert both.0 == [Selected(a')] + last.0 && both.1 == last.1;
    assert both.0 == [Selected(a), Selected(b)] && both.1 == [];
    assert both == ([Selected(a), Selected(b)], []);
    assert page[1].listeners == [];
  }

  // ----- Corrected ----------------------------------------------------------

  /** Every prompt carries exactly its own handler, and ids are unique. */
  ghost predicate Owned(page: seq<Selector>)
  {
    && (forall i :: 0 <= i < |page| ==> page[i].listeners == [page[i].id])
    && (forall i, j :: 0 <= i < j < |page| ==> page[i].id != page[j].id)
  }

  /** `showLocationSelector` with the handler registered on the new prompt's
      own button. */
  function Show(page: seq<Selector>, s: Selector): seq<Selector>
  {
    page + [s.(listeners := [s.id])]
  }

  lemma ShowKeepsOwned(page: seq<Selector>, s: Selector)
    requires Owned(page)
    requires forall i :: 0 <= i < |page| ==> page[i].id != s.id
    ensures Owned(Show(page, s))
  {
  }

  /** The prompt with this id, if it is in the page. */
  function Lookup(page: seq<Selector>, id: nat): (r: Option<Selector>)
    ensures r.Some? ==> r.value in page && r.value.id == id
    ensures r.None? ==> forall i :: 0 <= i < |page| ==> page[i].id != id
  {
    if page == [] then None
    else if page[0].id == id then Some(page[0])
    else Lookup(page[1..], id)
  }

  /** Runs handlers in registration order. Handler `h`, corrected, reads
      prompt `h`'s own dropdown, asks for a route to its value and removes
      prompt `h`. */
  function Run(page: seq<Selector>, handlers: seq<nat>): (seq<Coord>, seq<Selector>)
    requires AllWellFormed(page)
    decreases |handlers|
  {
    if handlers == [] then ([], page)
    else match Lookup(page, handlers[0])
      case None => Run(page, handlers[1..])
      case Some(s) =>
        var rest := Run(RemoveId(page, handlers[0]), handlers[1..]);
        ([Selected(s)] + rest.0, rest.1)
  }

  /** A click on the navigate button of the `k`-th prompt, corrected. */
  function Click(page: seq<Selector>, k: nat): (seq<Coord>, seq<Selector>)
    requires AllWellFormed(page) && k < |page|
  {
    Run(page, page[k].listeners)
  }

  lemma {:induction false} LookupUnique(page: seq<Selector>, k: nat)
    requires Owned(page) && k < |page|
    ensures Lookup(page, page[k].id) == Some(page[k])
  {
    if k > 0 {
      assert page[0].id != page[k].id;
      LookupUnique(page[1..], k - 1);
    }
  }

  /** Removing a prompt whose id no other prompt carries takes out
      exactly that prompt. */
  lemma {:induction false} RemoveUnique(page: seq<Selector>, k: nat)
    requires k < |page|
    requires forall i :: 0 <= i < |page| && i != k ==> page[i].id != page[k].id
    ensures RemoveId(page, page[k].id) == page[..k] + page[k + 1..]
  {
    var tail := page[1..];
    if k == 0 {
      RemoveAbsent(tail, page[0].id);
      assert page[..0] + page[1..] == tail;
    } else {
      assert tail[k - 1] == page[k];
      RemoveUnique(tail, k - 1);
      assert tail[..k - 1] == page[1..k] && tail[k..] == page[k + 1..];
      assert [page[0]] + page[1..k] == page[..k];
    }
  }

  lemma {:induction false} RemoveAbsent(page: seq<Selector>, id: nat)
    requires forall i :: 0 <= i < |page| ==> page[i].id != id
    ensures RemoveId(page, id) == page
  {
    if page != [] {
      RemoveAbsent(page[1..], id);
    }
  }

  /** Corrected, a click on a prompt asks for exactly one route, to that
      prompt's choice, and closes that prompt and no other. */
  lemma ClickRoutesOwnChoice(page: seq<Selector>, k: nat)
    requires AllWellFormed(page) && Owned(page) && k < |page|
    ensures Click(page, k) == ([Selected(page[k])], page[..k] + page[k + 1..])
  {
    LookupUnique(page, k);
    RemoveUnique(page, k);
    var handlers := page[k].listeners;
    assert handlers == [page[k].id] && handlers[1..] == [];
    var rest := RemoveId(page, page[k].id);
    var none := Run(rest, []);
    assert none == ([], rest);
    var click := Run(page, handlers);
    assert click.0 == [Selected(page[k])] + none.0 && click.1 == none.1;
    assert click.0 == [Selected(page[k])] && click.1 == page[..k] + page[k + 1..];
    assert click == ([Selected(page[k])], page[..k] + page[k + 1..]);
  }

  /** Closing one prompt keeps every other prompt and its handler. */
  lemma RemoveAtKeepsOwned(page: seq<Selector>, k: nat)
    requires AllWellFormed(page) && Owned(page) && k < |page|
    ensures var rest := page[..k] + page[k + 1..];
            AllWellFormed(rest) && Owned(rest) && forall s :: s in rest ==> s in page
  {
    var rest := page[..k] + page[k + 1..];
    forall i | 0 <= i < |rest|
      ensures rest[i] == page[if i < k then i else i + 1]
    {
    }
  }

  /** While only one prompt is open, the wiring as written and the
      corrected wiring do the same thing on a click. */
  lemma WiringsAgreeOnOnePrompt(s: Selector)
    requires WellFormed(s) && s.listeners == []
    ensures ClickAsWritten(ShowAsWritten([], s), 0) == Click(Show([], s), 0)
  {
    var t := s.(listeners := [s.id]);
    var shown := ShowAsWritten([], s);
    assert [] + [s] == [s];
    assert |shown| == 1 && shown[0] == t;
    assert shown == [t];
    assert Show([], s) == [t];
    assert AllWellFormed([t]) && AllWellFormed([]);
    assert [s.id][1..] == [];
    assert RemoveId([], s.id) == [];
    assert RemoveId([t], s.id) == [];
    assert Lookup([t], s.id) == Some(t);
    assert RunAsWritten([], []) == ([], []);
    assert Run([], []) == ([], []);
    var w := RunAsWritten([t], [s.id]);
    var c := Run([t], [s.id]);
    assert w.0 == [Selected(t)] && w.1 == [];
    assert c.0 == [Selected(t)] && c.1 == [];
  }
}
