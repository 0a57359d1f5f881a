/** The actor collection: an ordered draw list that level setup adds to,
    that can be pruned by a predicate, and that the draw pass walks in order,
    submitting every actor that has a model to the renderer. */
module Objects {
  import opened Wrappers
  import StatusType

  /** What an actor is as far as drawing goes: a model object, whose model
      reference may be null, or an actor of some other kind. */
  datatype Visual = NotAModel | ModelObject(model: Option<string>)

  /** An actor: identity, status flags and its visual part. */
  datatype Actor = Actor(id: string, status: StatusType.Status, visual: Visual)

  /** The actor is a model object, so the draw pass's cast succeeds. */
  predicate IsModelObject(a: Actor) {
    a.visual.ModelObject?
  }

  /** The actor has a non-null model, the one test the draw pass makes. */
  predicate HasModel(a: Actor) {
    a.visual.ModelObject? && a.visual.model.Some?
  }

  /** The negation of a predicate. */
  function Not<T>(p: T -> bool): T -> bool {
    x => !p(x)
  }

  /** The elements of `s` that satisfy `p`, in their order in `s`. */
  function Filter<T>(s: seq<T>, p: T -> bool): (r: seq<T>)
    ensures |r| <= |s|
  {
    if s == [] then []
    else Filter(s[..|s| - 1], p) + (if p(s[|s| - 1]) then [s[|s| - 1]] else [])
  }

  /** How many elements of `s` satisfy `p`. */
  function Count<T>(s: seq<T>, p: T -> bool): (r: nat)
    ensures r <= |s|
  {
    if s == [] then 0 else Count(s[..|s| - 1], p) + (if p(s[|s| - 1]) then 1 else 0)
  }

  /** The index of the first element of `s` that satisfies `p`, if any. */
  function FirstMatch<T>(s: seq<T>, p: T -> bool): (r: Option<nat>)
    ensures r.Some? ==> r.value < |s| && p(s[r.value])
    ensures r.Some? ==> forall j :: 0 <= j < r.value ==> !p(s[j])
    ensures r.None? ==> forall j :: 0 <= j < |s| ==> !p(s[j])
  {
    if s == [] then None
    else if p(s[0]) then Some(0)
    else match FirstMatch(s[1..], p)
      case None => None
      case Some(i) => Some(i + 1)
  }

  /** `s` without its first element satisfying `p`; `s` itself when no
      element does. */
  function RemoveFirst<T>(s: seq<T>, p: T -> bool): (r: seq<T>)
    ensures |r| == |s| <==> FirstMatch(s, p).None?
    ensures |r| == |s| || |r| == |s| - 1
  {
    match FirstMatch(s, p)
    case None => s
    case Some(i) => s[..i] + s[i + 1..]
  }

  /** The actor collection of one scene. */
  class ObjectManager {
    var drawList: seq<Actor>

    /** A new manager holds no actors. The initial capacity only sizes the
        list. */
    constructor (initialSize: nat)
      ensures drawList == []
    {
      drawList := [];
    }

    /** Append `actor` to the end of the draw list. */
    method Add(actor: Actor)
      modifies this
      ensures drawList == old(drawList) + [actor]
    {
      drawList := drawList + [actor];
    }

    /** Find the first actor that satisfies `p` and remove it. Reports
        whether an actor was removed. */
    method Remove(p: Actor -> bool) returns (removed: bool)
      modifies this
      ensures removed <==> exists a :: a in old(drawList) && p(a)
      ensures drawList == RemoveFirst(old(drawList), p)
    {
      var found := FirstMatch(drawList, p);
      if found.Some? {
        var i := found.value;
        drawList := drawList[..i] + drawList[i + 1..];
        return true;
      }
      return false;
    }

    /** Remove every actor that satisfies `p`. Returns how many were
        removed. */
    method RemoveAll(p: Actor -> bool) returns (count: int)
      modifies this
      ensures drawList == Filter(old(drawList), Not(p))
      ensures count == |old(drawList)| - |drawList|
    {
      var before := |drawList|;
      drawList := Filter(drawList, Not(p));
      count := before - |drawList|;
    }

    /** The draw pass: visit the list in order and submit each actor that has
        a model. The cast to a model object must succeed for every actor.
        Returns the actors submitted, in submission order. */
    method Draw() returns (submitted: seq<Actor>)
      requires forall a :: a in drawList ==> IsModelObject(a)
      ensures submitted == Filter(drawList, HasModel)
    {
      submitted := [];
      for i := 0 to |drawList|
        invariant submitted == Filter(drawList[..i], HasModel)
      {
        var actor := drawList[i];
        assert actor in drawList;
        assert drawList[..i + 1][..i] == drawList[..i];
        if actor.visual.model.Some? {
          submitted := submitted + [actor];
        }
      }
      assert drawList[..|drawList|] == drawList;
    }
  }

  /** An element survives filtering exactly when it was there and satisfies
      the predicate. */
  lemma {:induction false} FilterMembers<T>(s: seq<T>, p: T -> bool, x: T)
    ensures x in Filter(s, p) <==> x in s && p(x)
  {
    if s != [] {
      var init := s[..|s| - 1];
      FilterMembers(init, p, x);
      assert s == init + [s[|s| - 1]];
    }
  }

  /** Filtering keeps relative order: it distributes over concatenation. */
  lemma {:induction false} FilterAppend<T>(s: seq<T>, t: seq<T>, p: T -> bool)
    ensures Filter(s + t, p) == Filter(s, p) + Filter(t, p)
    decreases |t|
  {
    if t != [] {
      var init, last := t[..|t| - 1], t[|t| - 1];
      assert (s + t)[..|s + t| - 1] == s + init;
      assert (s + t)[|s + t| - 1] == last;
      FilterAppend(s, init, p);
      assert Filter(s + t, p) == Filter(s + init, p) + (if p(last) then [last] else []);
      assert Filter(t, p) == Filter(init, p) + (if p(last) then [last] else []);
    } else {
      assert s + t == s;
    }
  }

  /** Filtering removes exactly the elements that fail the predicate. */
  lemma {:induction false} FilterCount<T>(s: seq<T>, p: T -> bool)
    ensures |Filter(s, Not(p))| == |s| - Count(s, p)
    ensures Count(s, p) == 0 ==> Filter(s, Not(p)) == s
  {
    if s != [] {
      FilterCount(s[..|s| - 1], p);
      assert s == s[..|s| - 1] + [s[|s| - 1]];
    }
  }

  /** After `RemoveAll(p)` no actor satisfies `p`, the survivors are the
      actors that did not, and the count returned is the number of actors
      that did. When none matched, the list is unchanged. */
  lemma RemoveAllSpec(s: seq<Actor>, p: Actor -> bool)
    ensures forall a :: a in Filter(s, Not(p)) <==> a in s && !p(a)
    ensures |s| - |Filter(s, Not(p))| == Count(s, p)
    ensures Count(s, p) == 0 ==> Filter(s, Not(p)) == s
  {
    forall a
      ensures a in Filter(s, Not(p)) <==> a in s && !p(a)
    {
      FilterMembers(s, Not(p), a);
    }
    FilterCount(s, p);
  }

  /** `Remove(p)` takes out the first actor that satisfies `p` and nothing
      else, keeping the others in order; with no match it changes nothing.
      Either way at most one actor goes. */
  lemma RemoveFirstSpec(s: seq<Actor>, p: Actor -> bool)
    ensures (forall a :: a in s ==> !p(a)) ==> RemoveFirst(s, p) == s
    ensures (exists a :: a in s && p(a)) ==>
      exists i :: 0 <= i < |s| && p(s[i]) && (forall j :: 0 <= j < i ==> !p(s[j])) &&
        RemoveFirst(s, p) == s[..i] + s[i + 1..]
    ensures |RemoveFirst(s, p)| == |s| || |RemoveFirst(s, p)| == |s| - 1
    ensures multiset(RemoveFirst(s, p)) <= multiset(s)
  {
    match FirstMatch(s, p)
    case None =>
    case Some(i) =>
      assert s == s[..i] + [s[i]] + s[i + 1..];
      assert RemoveFirst(s, p) == s[..i] + s[i + 1..];
      assert multiset(s) == multiset(RemoveFirst(s, p)) + multiset{s[i]};
  }

  /** The draw pass submits exactly the actors with a model, in list order:
      what it has submitted after visiting any prefix of the list is a prefix
      of the whole submission. */
  lemma DrawSelection(s: seq<Actor>)
    ensures forall a :: a in Filter(s, HasModel) <==> a in s && HasModel(a)
    ensures forall i :: 0 <= i <= |s| ==> Filter(s[..i], HasModel) <= Filter(s, HasModel)
  {
    forall a
      ensures a in Filter(s, HasModel) <==> a in s && HasModel(a)
    {
      FilterMembers(s, HasModel, a);
    }
    forall i | 0 <= i <= |s|
      ensures Filter(s[..i], HasModel) <= Filter(s, HasModel)
    {
      FilterAppend(s[..i], s[i..], HasModel);
      assert s[..i] + s[i..] == s;
    }
  }

  /** Two actors that are the same apart from their status flags. */
  predicate SameButStatus(a: Actor, b: Actor) {
    a.id == b.id && a.visual == b.visual
  }

  /** Two lists that differ at most in the actors' status flags. */
  predicate ListsSameButStatus(s: seq<Actor>, t: seq<Actor>) {
    |s| == |t| && forall i :: 0 <= i < |s| ==> SameButStatus(s[i], t[i])
  }

  /** The draw pass never consults status flags: lists that differ only in
      them have the same actors submitted, in the same order. */
  lemma {:induction false} DrawIgnoresStatus(s: seq<Actor>, t: seq<Actor>)
    requires ListsSameButStatus(s, t)
    ensures ListsSameButStatus(Filter(s, HasModel), Filter(t, HasModel))
  {
    if s != [] {
      var n := |s|;
      var s', t' := s[..n - 1], t[..n - 1];
      assert ListsSameButStatus(s', t');
      DrawIgnoresStatus(s', t');
      assert SameButStatus(s[n - 1], t[n - 1]);
      var fs, ft := Filter(s', HasModel), Filter(t', HasModel);
      if HasModel(s[n - 1]) {
        assert Filter(s, HasModel) == fs + [s[n - 1]];
        assert Filter(t, HasModel) == ft + [t[n - 1]];
      } else {
        assert Filter(s, HasModel) == fs;
        assert Filter(t, HasModel) == ft;
      }
    }
  }
}
