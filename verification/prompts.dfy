/**
 * The prompt entity shared by both front ends: an identity, a display name and
 * the instruction text, with identity-by-id equality. Prompt lists are plain
 * sequences; the look-ups and list rewrites both apps perform on them are
 * defined here once and used by the macOS `AppDelegate` and the Windows
 * settings window.
 */
module Prompts {
  import opened Wrappers

  /** A prompt identity (Swift `UUID`, .NET `Guid`). */
  type Uuid = nat

  datatype Prompt = Prompt(id: Uuid, name: string, text: string)

  // ---------------------------------------------------------------------------
  // Identity

  /** Swift `Prompt ==`: two prompts are the same prompt iff their ids agree. */
  predicate SameIdentity(a: Prompt, b: Prompt) {
    a.id == b.id
  }

  /** An argument to .NET `object.Equals`: a prompt, some other object, or null. */
  datatype Object = PromptObject(prompt: Prompt) | OtherObject | NullObject

  /** `Prompt.Equals(obj)`. */
  function Equals(p: Prompt, obj: Object): (r: bool)
    ensures r ==> obj.PromptObject? && SameIdentity(p, obj.prompt)
    ensures !obj.PromptObject? ==> !r
  {
    match obj
    case PromptObject(other) => p.id == other.id
    case _ => false
  }

  /** The two platforms' equalities agree, and neither looks at the name or the text. */
  lemma {:induction false} EqualityIsIdentity(a: Prompt, b: Prompt)
    ensures Equals(a, PromptObject(b)) <==> SameIdentity(a, b)
    ensures SameIdentity(a, b) <==> a.id == b.id
    ensures forall name, text :: Equals(a, PromptObject(Prompt(a.id, name, text)))
  {
  }

  /** `Equals` is an equivalence on prompts. */
  lemma {:induction false} EqualsIsEquivalence(a: Prompt, b: Prompt, c: Prompt)
    ensures Equals(a, PromptObject(a))
    ensures Equals(a, PromptObject(b)) ==> Equals(b, PromptObject(a))
    ensures Equals(a, PromptObject(b)) && Equals(b, PromptObject(c)) ==> Equals(a, PromptObject(c))
  {
  }

  /** `Guid.GetHashCode()`, folded to a 32-bit signed value. */
  function IdHash(id: Uuid): (h: int)
    ensures -0x8000_0000 <= h < 0x8000_0000
  {
    (id % 0x1_0000_0000) - 0x8000_0000
  }

  /** `Prompt.GetHashCode()`: the hash of the id alone. */
  function HashCode(p: Prompt): (h: int)
    ensures -0x8000_0000 <= h < 0x8000_0000
  {
    IdHash(p.id)
  }

  /** Equal prompts hash alike, whatever their names and texts. */
  lemma {:induction false} EqualPromptsHashAlike(a: Prompt, b: Prompt)
    requires Equals(a, PromptObject(b))
    ensures HashCode(a) == HashCode(b)
    ensures -0x8000_0000 <= HashCode(a) < 0x8000_0000
  {
  }

  /**
   * `new Prompt(name, text)` and Swift `Prompt(name:text:)`: a prompt with the
   * given name and text under a newly generated id, supplied here as `freshId`.
   */
  function NewPrompt(existing: seq<Prompt>, freshId: Uuid, name: string, text: string): (p: Prompt)
    requires freshId !in IdsOf(existing)
    ensures p.name == name && p.text == text
    ensures forall i :: 0 <= i < |existing| ==> !Equals(p, PromptObject(existing[i]))
  {
    Prompt(freshId, name, text)
  }

  // ---------------------------------------------------------------------------
  // Prompt lists

  function IdsOf(ps: seq<Prompt>): set<Uuid> {
    set i | 0 <= i < |ps| :: ps[i].id
  }

  predicate UniqueIds(ps: seq<Prompt>) {
    forall i, j :: 0 <= i < j < |ps| ==> ps[i].id != ps[j].id
  }

  /** `firstIndex(where: { $0.id == id })` / `FindIndex(p => p.Id == id)`. */
  function IndexOfId(ps: seq<Prompt>, id: Uuid): (r: Option<nat>)
    ensures r.Some? ==> r.value < |ps| && ps[r.value].id == id
                        && forall j :: 0 <= j < r.value ==> ps[j].id != id
    ensures r.None? <==> id !in IdsOf(ps)
  {
    if |ps| == 0 then None
    else if ps[0].id == id then Some(0)
    else
      match IndexOfId(ps[1..], id)
      case None => None
      case Some(k) => Some(k + 1)
  }

  /** `first(where: { $0.id == id })`: the first prompt with that id. */
  function FindById(ps: seq<Prompt>, id: Uuid): (r: Option<Prompt>)
    ensures r.Some? <==> id in IdsOf(ps)
    ensures r.Some? ==> r.value in ps && r.value.id == id
    ensures r.Some? ==> IndexOfId(ps, id).Some? && r.value == ps[IndexOfId(ps, id).value]
  {
    match IndexOfId(ps, id)
    case None => None
    case Some(i) => Some(ps[i])
  }

  /** The prompt a (possibly empty) selection designates, if it designates one. */
  function Selected(ps: seq<Prompt>, selection: Option<Uuid>): (r: Option<Prompt>)
    ensures r.Some? <==> selection.Some? && selection.value in IdsOf(ps)
    ensures r.Some? ==> r.value in ps && r.value.id == selection.value
    ensures r.Some? ==> IndexOfId(ps, selection.value).Some?
                        && r.value == ps[IndexOfId(ps, selection.value).value]
  {
    if selection.None? then None else FindById(ps, selection.value)
  }

  /** `list.RemoveAll(p => p.Id == id)`: every prompt with that id goes, the rest stay in order. */
  function RemoveAllId(ps: seq<Prompt>, id: Uuid): (r: seq<Prompt>)
    ensures forall q :: q in r <==> q in ps && q.id != id
    ensures IdsOf(r) == IdsOf(ps) - {id}
    ensures |r| <= |ps|
  {
    if |ps| == 0 then []
    else if ps[0].id == id then RemoveAllId(ps[1..], id)
    else
      var rest := RemoveAllId(ps[1..], id);
      assert ps == [ps[0]] + ps[1..];
      IdsOfCons(ps[0], ps[1..]);
      IdsOfCons(ps[0], rest);
      [ps[0]] + rest
  }

  /**
   * Removal works prompt by prompt and keeps the order of what stays: it
   * distributes over concatenation, and one prompt is dropped exactly when it
   * has the id.
   */
  lemma {:induction false} RemoveAllIdDistributes(a: seq<Prompt>, b: seq<Prompt>, id: Uuid)
    ensures RemoveAllId(a + b, id) == RemoveAllId(a, id) + RemoveAllId(b, id)
    decreases |a|
  {
    if |a| > 0 {
      assert (a + b)[1..] == a[1..] + b;
      RemoveAllIdDistributes(a[1..], b, id);
    } else {
      assert a + b == b;
    }
  }

  lemma {:induction false} RemoveAllIdSingleton(p: Prompt, id: Uuid)
    ensures RemoveAllId([p], id) == if p.id == id then [] else [p]
  {
  }

  lemma {:induction false} IdsOfCons(p: Prompt, ps: seq<Prompt>)
    ensures IdsOf([p] + ps) == {p.id} + IdsOf(ps)
  {
    var c := [p] + ps;
    forall x | x in IdsOf(ps) ensures x in IdsOf(c) {
      var k :| 0 <= k < |ps| && ps[k].id == x;
      assert c[k + 1].id == x;
    }
    forall x | x in IdsOf(c) ensures x == p.id || x in IdsOf(ps) {
      var k :| 0 <= k < |c| && c[k].id == x;
      if k > 0 { assert ps[k - 1].id == x; }
    }
    assert c[0].id == p.id;
  }

  /** `prompts[i].name = name; prompts[i].text = text`: id and position stay, nothing else changes. */
  function Rewritten(ps: seq<Prompt>, i: nat, name: string, text: string): (r: seq<Prompt>)
    requires i < |ps|
    ensures |r| == |ps| && r[i] == Prompt(ps[i].id, name, text)
    ensures forall j :: 0 <= j < |ps| && j != i ==> r[j] == ps[j]
    ensures IdsOf(r) == IdsOf(ps)
  {
    var r := ps[i := Prompt(ps[i].id, name, text)];
    assert forall j :: 0 <= j < |ps| ==> r[j].id == ps[j].id;
    r
  }

  /**
   * The two platforms' deletions agree on lists with unique ids: removing
   * every prompt with the id (Windows) is removing the one at its first
   * index (macOS); a missing id leaves the list as it is.
   */
  lemma {:induction false} RemoveAllIsRemoveAt(ps: seq<Prompt>, id: Uuid)
    requires UniqueIds(ps)
    ensures IndexOfId(ps, id).Some? ==>
              RemoveAllId(ps, id) == ps[..IndexOfId(ps, id).value] + ps[IndexOfId(ps, id).value + 1..]
    ensures IndexOfId(ps, id).None? ==> RemoveAllId(ps, id) == ps
  {
    if IndexOfId(ps, id).None? {
      NotPresentIsKept(ps, id);
    } else if ps[0].id == id {
      TailLacksHeadId(ps);
      NotPresentIsKept(ps[1..], id);
    } else {
      var k := IndexOfId(ps[1..], id).value;
      assert IndexOfId(ps, id) == Some(k + 1);
      UniqueTail(ps);
      RemoveAllIsRemoveAt(ps[1..], id);
      assert RemoveAllId(ps, id) == [ps[0]] + RemoveAllId(ps[1..], id);
      ConsSplit(ps, k);
    }
  }

  lemma {:induction false} UniqueTail(ps: seq<Prompt>)
    requires UniqueIds(ps) && |ps| > 0
    ensures UniqueIds(ps[1..])
  {
    forall i, j | 0 <= i < j < |ps| - 1 ensures ps[1..][i].id != ps[1..][j].id {
      assert ps[1..][i] == ps[i + 1] && ps[1..][j] == ps[j + 1];
    }
  }

  /** Cutting position `k` out of the tail, then putting the head back, cuts position `k + 1`. */
  lemma {:induction false} ConsSplit(ps: seq<Prompt>, k: nat)
    requires k + 1 < |ps|
    ensures [ps[0]] + (ps[1..][..k] + ps[1..][k + 1..]) == ps[..k + 1] + ps[k + 2..]
  {
    assert ps[..k + 1] == [ps[0]] + ps[1..][..k];
    assert ps[k + 2..] == ps[1..][k + 1..];
  }

  /** In a list with unique ids the head's id does not recur in the tail. */
  lemma {:induction false} TailLacksHeadId(ps: seq<Prompt>)
    requires UniqueIds(ps) && |ps| > 0
    ensures ps[0].id !in IdsOf(ps[1..])
  {
    forall x | x in IdsOf(ps[1..]) ensures x != ps[0].id {
      var k :| 0 <= k < |ps[1..]| && ps[1..][k].id == x;
      assert ps[k + 1].id == x;
    }
  }

  /** Removing an id that is absent removes nothing. */
  lemma {:induction false} NotPresentIsKept(ps: seq<Prompt>, id: Uuid)
    requires id !in IdsOf(ps)
    ensures RemoveAllId(ps, id) == ps
  {
    if |ps| > 0 {
      assert ps[0].id in IdsOf(ps);
      assert IdsOf(ps[1..]) <= IdsOf(ps) by {
        forall x | x in IdsOf(ps[1..]) ensures x in IdsOf(ps) {
          var k :| 0 <= k < |ps[1..]| && ps[1..][k].id == x;
          assert ps[k + 1].id == x;
        }
      }
      NotPresentIsKept(ps[1..], id);
      assert ps == [ps[0]] + ps[1..];
    }
  }

  /** Removing an element keeps the remaining ids unique. */
  lemma {:induction false} RemoveAtKeepsUnique(ps: seq<Prompt>, i: nat)
    requires UniqueIds(ps) && i < |ps|
    ensures UniqueIds(ps[..i] + ps[i + 1..])
    ensures IdsOf(ps[..i] + ps[i + 1..]) == IdsOf(ps) - {ps[i].id}
  {
    var r := ps[..i] + ps[i + 1..];
    assert forall j :: 0 <= j < |r| ==> r[j] == (if j < i then ps[j] else ps[j + 1]);
    forall x | x in IdsOf(ps) - {ps[i].id} ensures x in IdsOf(r) {
      var k :| 0 <= k < |ps| && ps[k].id == x;
      assert k != i;
      if k < i { assert r[k].id == x; } else { assert r[k - 1].id == x; }
    }
  }

  /** A prompt appended under a new id is found again by that id. */
  lemma {:induction false} AppendedIsFound(ps: seq<Prompt>, p: Prompt)
    requires p.id !in IdsOf(ps)
    ensures IndexOfId(ps + [p], p.id) == Some(|ps|)
    ensures Selected(ps + [p], Some(p.id)) == Some(p)
    ensures IdsOf(ps + [p]) == IdsOf(ps) + {p.id}
    ensures UniqueIds(ps) ==> UniqueIds(ps + [p])
  {
    var r := ps + [p];
    assert r[|ps|] == p;
    assert IndexOfId(r, p.id) == Some(|ps|) by {
      forall j | 0 <= j < |ps| ensures r[j].id != p.id {
        assert r[j] == ps[j];
      }
    }
    forall x | x in IdsOf(r) ensures x in IdsOf(ps) + {p.id} {
      var k :| 0 <= k < |r| && r[k].id == x;
      if k < |ps| { assert ps[k].id == x; }
    }
    forall x | x in IdsOf(ps) ensures x in IdsOf(r) {
      var k :| 0 <= k < |ps| && ps[k].id == x;
      assert r[k].id == x;
    }
  }
}
