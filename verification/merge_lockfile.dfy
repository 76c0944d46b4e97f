/**
 * The three-way merge of `package-lock.json` used when upstream is synced. A value that is not an
 * object (lists included) is one leaf; `Missing` stands for a key that is not there.
 */
module MergeLockfile {
  import opened Prelude

  datatype Val = Missing | Leaf(text: string) | Dict(fields: map<string, Val>)

  type Path = seq<string>

  const WORKSPACES := "workspaces"

  /** The value under a key; what is not an object has no keys. */
  function Get(v: Val, key: string): Val {
    if v.Dict? && key in v.fields then v.fields[key] else Missing
  }

  function At(v: Val, q: Path): Val
    decreases q
  {
    if q == [] then v else At(Get(v, q[0]), q[1..])
  }

  /** A value as read from JSON: no key holds `Missing`. */
  predicate Clean(v: Val) {
    v.Dict? ==> forall k :: k in v.fields ==> v.fields[k] != Missing && Clean(v.fields[k])
  }

  predicate EndsInWorkspaces(path: Path) {
    path != [] && path[|path| - 1] == WORKSPACES
  }

  /** Both sides changed the value, differently. */
  predicate BothChanged(base: Val, ours: Val, theirs: Val) {
    ours != theirs && theirs != base && ours != base
  }

  /** The merged value; keys whose merged value is `Missing` are left out of the result. */
  function Merge(base: Val, ours: Val, theirs: Val, path: Path, workspaces: Val): Val
    decreases if ours.Missing? then 0 else 1, ours
  {
    if ours == theirs || theirs == base then ours
    else if ours == base then theirs
    else if ours.Dict? && theirs.Dict? then
      Dict(map k | k in ours.fields.Keys + theirs.fields.Keys
               && Merge(Get(base, k), Get(ours, k), Get(theirs, k), path + [k], workspaces) != Missing
             :: Merge(Get(base, k), Get(ours, k), Get(theirs, k), path + [k], workspaces))
    else if EndsInWorkspaces(path) then workspaces
    else theirs
  }

  /** Every proper prefix of `q` leads to an object on both sides. */
  predicate Open(ours: Val, theirs: Val, q: Path)
    decreases q
  {
    q == [] || (ours.Dict? && theirs.Dict? && Open(Get(ours, q[0]), Get(theirs, q[0]), q[1..]))
  }

  /** The two sides changed the value at `q` in ways that cannot both stand. */
  predicate Collision(base: Val, ours: Val, theirs: Val, q: Path) {
    && Open(ours, theirs, q)
    && BothChanged(At(base, q), At(ours, q), At(theirs, q))
    && !(At(ours, q).Dict? && At(theirs, q).Dict?)
  }

  /** A both-changed `workspaces` key at `q` or on the way to it. */
  ghost predicate Overridden(base: Val, ours: Val, theirs: Val, path: Path, q: Path) {
    exists i :: 0 <= i <= |q| && Collision(base, ours, theirs, q[..i]) && EndsInWorkspaces(path + q[..i])
  }

  /** A collision at `q` or on the way to it. */
  ghost predicate Collides(base: Val, ours: Val, theirs: Val, q: Path) {
    exists i :: 0 <= i <= |q| && Collision(base, ours, theirs, q[..i])
  }

  // ---------------------------------------------------------------------------
  // Paths
  // ---------------------------------------------------------------------------

  lemma {:induction false} AtConcat(v: Val, q: Path, r: Path)
    ensures At(v, q + r) == At(At(v, q), r)
    decreases q
  {
    if q == [] {
      assert q + r == r;
    } else {
      assert (q + r)[0] == q[0] && (q + r)[1..] == q[1..] + r;
      AtConcat(Get(v, q[0]), q[1..], r);
    }
  }

  /** The prefix condition, in terms of the values on the way. */
  lemma {:induction false} OpenMeans(ours: Val, theirs: Val, q: Path)
    ensures Open(ours, theirs, q) <==> forall i :: 0 <= i < |q| ==> At(ours, q[..i]).Dict? && At(theirs, q[..i]).Dict?
    decreases q
  {
    if q != [] {
      OpenMeans(Get(ours, q[0]), Get(theirs, q[0]), q[1..]);
      assert At(ours, q[..0]) == ours && At(theirs, q[..0]) == theirs;
      forall i | 0 <= i < |q| - 1
        ensures At(ours, q[..i + 1]) == At(Get(ours, q[0]), q[1..][..i])
        ensures At(theirs, q[..i + 1]) == At(Get(theirs, q[0]), q[1..][..i])
      {
        assert q[..i + 1][1..] == q[1..][..i];
      }
      if forall i :: 0 <= i < |q| ==> At(ours, q[..i]).Dict? && At(theirs, q[..i]).Dict? {
        forall i | 0 <= i < |q| - 1
          ensures At(Get(ours, q[0]), q[1..][..i]).Dict? && At(Get(theirs, q[0]), q[1..][..i]).Dict?
        {
          assert At(ours, q[..i + 1]).Dict?;
        }
      }
      if Open(ours, theirs, q) {
        forall i | 0 <= i < |q|
          ensures At(ours, q[..i]).Dict? && At(theirs, q[..i]).Dict?
        {
          if i > 0 { assert At(ours, q[..(i - 1) + 1]) == At(Get(ours, q[0]), q[1..][..i - 1]); }
        }
      }
    }
  }

  /** A merged field is the merge of the fields, also where the result has no such key. */
  lemma FieldMerged(base: Val, ours: Val, theirs: Val, path: Path, workspaces: Val, k: string)
    requires BothChanged(base, ours, theirs) && ours.Dict? && theirs.Dict?
    ensures Get(Merge(base, ours, theirs, path, workspaces), k)
         == Merge(Get(base, k), Get(ours, k), Get(theirs, k), path + [k], workspaces)
  {
  }

  lemma CollisionBelow(base: Val, ours: Val, theirs: Val, q: Path)
    requires q != [] && ours.Dict? && theirs.Dict?
    ensures Collision(base, ours, theirs, q)
       <==> Collision(Get(base, q[0]), Get(ours, q[0]), Get(theirs, q[0]), q[1..])
  {
  }

  /** A collision is reached: on the way to it both sides have changed, and both are objects. */
  lemma CollisionReached(base: Val, ours: Val, theirs: Val, q: Path)
    requires q != [] && Collision(base, ours, theirs, q)
    ensures ours.Dict? && theirs.Dict? && BothChanged(base, ours, theirs)
  {
  }

  // ---------------------------------------------------------------------------
  // The result, key path by key path
  // ---------------------------------------------------------------------------

  /** From a collision down the result is upstream's, or the given workspaces list. */
  lemma {:induction false} CollisionDecides(
    base: Val, ours: Val, theirs: Val, path: Path, workspaces: Val, q: Path, i: nat)
    requires i <= |q| && Collision(base, ours, theirs, q[..i])
    ensures At(Merge(base, ours, theirs, path, workspaces), q)
         == if EndsInWorkspaces(path + q[..i]) then At(workspaces, q[i..]) else At(theirs, q)
    decreases i
  {
    hide Merge, Open;
    if i == 0 {
      assert path + q[..0] == path && q[0..] == q;
      MergeStops(base, ours, theirs, path, workspaces);
    } else {
      var k, rest := q[0], q[1..];
      assert q[..i][0] == k && q[..i][1..] == rest[..i - 1];
      CollisionReached(base, ours, theirs, q[..i]);
      CollisionBelow(base, ours, theirs, q[..i]);
      FieldMerged(base, ours, theirs, path, workspaces, k);
      CollisionDecides(Get(base, k), Get(ours, k), Get(theirs, k), path + [k], workspaces, rest, i - 1);
      assert (path + [k]) + rest[..i - 1] == path + q[..i];
      assert rest[i - 1..] == q[i..];
    }
  }

  /**
   * Where the two sides changed the value under a key and it is not two objects, the result has
   * upstream's value, or the given list if that key, the last of the path, is "workspaces".
   */
  lemma StopExactly(base: Val, ours: Val, theirs: Val, path: Path, key: string, workspaces: Val)
    requires ours != theirs && theirs != base && ours != base && !(ours.Dict? && theirs.Dict?)
    ensures Merge(base, ours, theirs, path + [key], workspaces) == if key == "workspaces" then workspaces else theirs
    ensures Merge(base, ours, theirs, [], workspaces) == theirs
  {
  }

  /** The same for the whole tree, at any depth. */
  lemma CollisionExactly(base: Val, ours: Val, theirs: Val, workspaces: Val, q: Path, key: string)
    requires Collision(base, ours, theirs, q + [key])
    ensures At(Merge(base, ours, theirs, [], workspaces), q + [key])
         == if key == "workspaces" then workspaces else At(theirs, q + [key])
  {
    var whole := q + [key];
    assert whole[..|whole|] == whole && [] + whole == whole && whole[|whole|..] == [];
    CollisionDecides(base, ours, theirs, [], workspaces, whole, |whole|);
  }

  /**
   * The shape of a lockfile: the list sits under the root package. Both sides have changed it, and
   * upstream a version beside it; the merge takes the given list and upstream's version.
   */
  lemma LockfileExample(workspaces: Val)
    requires workspaces != Missing
    ensures
      var base := Lockfile(Leaf("[a]"), Leaf("1"));
      var ours := Lockfile(Leaf("[a, b]"), Leaf("1"));
      var theirs := Lockfile(Leaf("[a, c]"), Leaf("4"));
      Merge(base, ours, theirs, [], workspaces) == Lockfile(workspaces, Leaf("4"))
  {
    hide Merge, Root;
    var base, ours := Root(Leaf("[a]"), Leaf("1")), Root(Leaf("[a, b]"), Leaf("1"));
    var theirs := Root(Leaf("[a, c]"), Leaf("4"));
    RootExample(workspaces);
    assert ["packages"] + [""] == ["packages", ""] && [] + ["packages"] == ["packages"];
    SingleMerged(base, ours, theirs, ["packages"], "", workspaces);
    SingleMerged(Single("", base), Single("", ours), Single("", theirs), [], "packages", workspaces);
  }

  /** An object with one key merges as the value under it. */
  lemma SingleMerged(base: Val, ours: Val, theirs: Val, path: Path, key: string, workspaces: Val)
    requires BothChanged(base, ours, theirs)
    requires Merge(base, ours, theirs, path + [key], workspaces) != Missing
    ensures BothChanged(Single(key, base), Single(key, ours), Single(key, theirs))
    ensures Merge(Single(key, base), Single(key, ours), Single(key, theirs), path, workspaces)
         == Single(key, Merge(base, ours, theirs, path + [key], workspaces))
  {
    hide Merge;
    assert Get(Single(key, base), key) == base && Get(Single(key, ours), key) == ours;
    assert Get(Single(key, theirs), key) == theirs;
    forall k
      ensures Merge(Get(Single(key, base), k), Get(Single(key, ours), k), Get(Single(key, theirs), k),
                    path + [k], workspaces)
           == Get(Single(key, Merge(base, ours, theirs, path + [key], workspaces)), k)
    {
      if k != key { MissingStays(Missing, path + [k], workspaces); }
    }
    MergedAs(Single(key, base), Single(key, ours), Single(key, theirs), path, workspaces,
             Single(key, Merge(base, ours, theirs, path + [key], workspaces)));
  }

  lemma RootExample(workspaces: Val)
    requires workspaces != Missing
    ensures
      var base, ours := Root(Leaf("[a]"), Leaf("1")), Root(Leaf("[a, b]"), Leaf("1"));
      var theirs := Root(Leaf("[a, c]"), Leaf("4"));
      && BothChanged(base, ours, theirs)
      && Merge(base, ours, theirs, ["packages", ""], workspaces) == Root(workspaces, Leaf("4")) != Missing
  {
    hide Merge;
    var base, ours := Root(Leaf("[a]"), Leaf("1")), Root(Leaf("[a, b]"), Leaf("1"));
    var theirs := Root(Leaf("[a, c]"), Leaf("4"));
    RootDiffers(Leaf("[a]"), Leaf("1"), Leaf("[a, b]"), Leaf("1"));
    RootDiffers(Leaf("[a]"), Leaf("1"), Leaf("[a, c]"), Leaf("4"));
    RootDiffers(Leaf("[a, b]"), Leaf("1"), Leaf("[a, c]"), Leaf("4"));
    StopExactly(Leaf("[a]"), Leaf("[a, b]"), Leaf("[a, c]"), ["packages", ""], "workspaces", workspaces);
    MergeStops(Leaf("1"), Leaf("1"), Leaf("4"), ["packages", ""] + ["version"], workspaces);
    forall k
      ensures Merge(Get(base, k), Get(ours, k), Get(theirs, k), ["packages", ""] + [k], workspaces)
           == Get(Root(workspaces, Leaf("4")), k)
    {
      if k != "workspaces" && k != "version" { MissingStays(Missing, ["packages", ""] + [k], workspaces); }
    }
    MergedAs(base, ours, theirs, ["packages", ""], workspaces, Root(workspaces, Leaf("4")));
  }

  lemma RootDiffers(list: Val, version: Val, list': Val, version': Val)
    requires list != list'
    ensures Root(list, version) != Root(list', version')
  {
    assert Get(Root(list, version), "workspaces") == list && Get(Root(list', version'), "workspaces") == list';
  }

  /** An object is the merge of two if each of its fields is. */
  lemma MergedAs(base: Val, ours: Val, theirs: Val, path: Path, workspaces: Val, expected: Val)
    requires BothChanged(base, ours, theirs) && ours.Dict? && theirs.Dict? && Tight(expected)
    requires forall k :: Merge(Get(base, k), Get(ours, k), Get(theirs, k), path + [k], workspaces) == Get(expected, k)
    ensures Merge(base, ours, theirs, path, workspaces) == expected
  {
    var merged := Merge(base, ours, theirs, path, workspaces);
    MergesObjects(base, ours, theirs, path, workspaces);
    forall k ensures Get(merged, k) == Get(expected, k) {
      FieldMerged(base, ours, theirs, path, workspaces, k);
    }
    SameFields(merged, expected);
  }

  function Root(list: Val, version: Val): Val {
    Dict(map["workspaces" := list, "version" := version])
  }

  function Single(key: string, v: Val): Val {
    Dict(map[key := v])
  }

  function Lockfile(list: Val, version: Val): Val {
    Single("packages", Single("", Root(list, version)))
  }

  /** Where nothing collides, the side that changed the value wins and two objects merge. */
  lemma {:induction false} FreeDecides(base: Val, ours: Val, theirs: Val, path: Path, workspaces: Val, q: Path)
    requires !Collides(base, ours, theirs, q)
    ensures var b, o, t := At(base, q), At(ours, q), At(theirs, q);
            var m := At(Merge(base, ours, theirs, path, workspaces), q);
            if BothChanged(b, o, t) then o.Dict? && t.Dict? && m.Dict?
            else m == if o == b then t else o
    decreases |q|
  {
    assert q[..0] == [];
    assert !Collision(base, ours, theirs, q[..0]);
    if q != [] && BothChanged(base, ours, theirs) {
      var k := q[0];
      FieldMerged(base, ours, theirs, path, workspaces, k);
      forall i | 0 <= i <= |q| - 1
        ensures !Collision(Get(base, k), Get(ours, k), Get(theirs, k), q[1..][..i])
      {
        assert !Collision(base, ours, theirs, q[..i + 1]);
        assert q[..i + 1][1..] == q[1..][..i];
        CollisionBelow(base, ours, theirs, q[..i + 1]);
      }
      FreeDecides(Get(base, k), Get(ours, k), Get(theirs, k), path + [k], workspaces, q[1..]);
    }
  }

  // ---------------------------------------------------------------------------
  // No change is lost silently
  // ---------------------------------------------------------------------------

  /** Each upstream change reaches the result unless a both-changed `workspaces` key covers its path. */
  lemma UpstreamReaches(base: Val, ours: Val, theirs: Val, path: Path, workspaces: Val, q: Path)
    requires At(theirs, q) != At(base, q) && !Overridden(base, ours, theirs, path, q)
    ensures var m := At(Merge(base, ours, theirs, path, workspaces), q);
            m == At(theirs, q) || (At(ours, q).Dict? && At(theirs, q).Dict? && m.Dict?)
  {
    if Collides(base, ours, theirs, q) {
      var i :| 0 <= i <= |q| && Collision(base, ours, theirs, q[..i]);
      CollisionDecides(base, ours, theirs, path, workspaces, q, i);
    } else {
      FreeDecides(base, ours, theirs, path, workspaces, q);
    }
  }

  /** Each Clisbot change reaches the result unless its path, or a prefix of it, collides. */
  lemma OursReaches(base: Val, ours: Val, theirs: Val, path: Path, workspaces: Val, q: Path)
    requires At(ours, q) != At(base, q) && !Collides(base, ours, theirs, q)
    ensures var m := At(Merge(base, ours, theirs, path, workspaces), q);
            m == At(ours, q) || (At(ours, q).Dict? && At(theirs, q).Dict? && m.Dict?)
  {
    FreeDecides(base, ours, theirs, path, workspaces, q);
  }

  /** Nothing appears from nowhere: a value neither side changed is kept. */
  lemma UnchangedKept(base: Val, ours: Val, theirs: Val, path: Path, workspaces: Val, q: Path)
    requires At(ours, q) == At(base, q) == At(theirs, q) && !Collides(base, ours, theirs, q)
    ensures At(Merge(base, ours, theirs, path, workspaces), q) == At(base, q)
  {
    FreeDecides(base, ours, theirs, path, workspaces, q);
  }

  // ---------------------------------------------------------------------------
  // Symmetry
  // ---------------------------------------------------------------------------

  lemma {:induction false} OpenSymmetric(ours: Val, theirs: Val, q: Path)
    ensures Open(ours, theirs, q) <==> Open(theirs, ours, q)
    decreases q
  {
    if q != [] { OpenSymmetric(Get(ours, q[0]), Get(theirs, q[0]), q[1..]); }
  }

  /** No value collides anywhere. */
  ghost predicate Peaceful(base: Val, ours: Val, theirs: Val) {
    forall q :: !Collision(base, ours, theirs, q)
  }

  lemma PeacefulBelow(base: Val, ours: Val, theirs: Val, k: string)
    requires Peaceful(base, ours, theirs) && ours.Dict? && theirs.Dict?
    ensures Peaceful(Get(base, k), Get(ours, k), Get(theirs, k))
  {
    forall q
      ensures !Collision(Get(base, k), Get(ours, k), Get(theirs, k), q)
    {
      assert !Collision(base, ours, theirs, [k] + q);
      assert ([k] + q)[1..] == q;
    }
  }

  lemma PeacefulHere(base: Val, ours: Val, theirs: Val)
    requires Peaceful(base, ours, theirs) && BothChanged(base, ours, theirs)
    ensures ours.Dict? && theirs.Dict?
  {
    assert !Collision(base, ours, theirs, []);
  }

  /** Without a collision the sides can be swapped. */
  lemma {:induction false} MergeSymmetric(base: Val, ours: Val, theirs: Val, path: Path, workspaces: Val)
    requires Peaceful(base, ours, theirs)
    ensures Merge(base, ours, theirs, path, workspaces) == Merge(base, theirs, ours, path, workspaces)
    decreases if ours.Missing? then 0 else 1, ours
  {
    hide Peaceful, Tight;
    if BothChanged(base, ours, theirs) {
      PeacefulHere(base, ours, theirs);
      forall k
        ensures Merge(Get(base, k), Get(ours, k), Get(theirs, k), path + [k], workspaces)
             == Merge(Get(base, k), Get(theirs, k), Get(ours, k), path + [k], workspaces)
        ensures Get(Merge(base, ours, theirs, path, workspaces), k)
             == Get(Merge(base, theirs, ours, path, workspaces), k)
      {
        PeacefulBelow(base, ours, theirs, k);
        FieldMerged(base, ours, theirs, path, workspaces, k);
        FieldMerged(base, theirs, ours, path, workspaces, k);
        if k in ours.fields.Keys + theirs.fields.Keys {
          MergeSymmetric(Get(base, k), Get(ours, k), Get(theirs, k), path + [k], workspaces);
        }
      }
      MergesObjects(base, ours, theirs, path, workspaces);
      MergesObjects(base, theirs, ours, path, workspaces);
      SameFields(Merge(base, ours, theirs, path, workspaces), Merge(base, theirs, ours, path, workspaces));
    }
  }

  predicate Tight(v: Val) {
    v.Dict? && forall k :: k in v.fields ==> v.fields[k] != Missing
  }

  lemma SameFields(a: Val, b: Val)
    requires Tight(a) && Tight(b) && forall k :: Get(a, k) == Get(b, k)
    ensures a == b
  {
    forall k
      ensures k in a.fields <==> k in b.fields
      ensures k in a.fields ==> a.fields[k] == b.fields[k]
    {
      assert Get(a, k) == Get(b, k);
    }
    assert a.fields == b.fields;
  }

  // ---------------------------------------------------------------------------
  // The program
  // ---------------------------------------------------------------------------

  datatype Conflict = Conflict(path: Path, ours: Val, theirs: Val)

  /** A conflict that is to be recorded: one collision, other than at a `workspaces` key. */
  predicate Recorded(e: Conflict, base: Val, ours: Val, theirs: Val, path: Path) {
    && path <= e.path
    && !EndsInWorkspaces(e.path)
    && Collision(base, ours, theirs, e.path[|path|..])
    && e.ours == At(ours, e.path[|path|..])
    && e.theirs == At(theirs, e.path[|path|..])
  }

  /** Swapping the sides swaps them in the record and changes nothing else about it. */
  lemma RecordedSymmetric(e: Conflict, base: Val, ours: Val, theirs: Val, path: Path)
    ensures Recorded(e, base, ours, theirs, path)
       <==> Recorded(Conflict(e.path, e.theirs, e.ours), base, theirs, ours, path)
  {
    if path <= e.path { OpenSymmetric(ours, theirs, e.path[|path|..]); }
  }

  predicate Distinct(es: seq<Conflict>) {
    forall i, j :: 0 <= i < j < |es| ==> es[i].path != es[j].path
  }

  /** The fields merged so far. */
  ghost predicate FieldsOf(
    fields: map<string, Val>, base: Val, ours: Val, theirs: Val, path: Path, workspaces: Val, visited: set<string>)
  {
    forall k ::
      && (k in fields <==>
          k in visited && Merge(Get(base, k), Get(ours, k), Get(theirs, k), path + [k], workspaces) != Missing)
      && (k in fields ==>
          fields[k] == Merge(Get(base, k), Get(ours, k), Get(theirs, k), path + [k], workspaces))
  }

  /** The conflict stands below one of the visited keys. */
  ghost predicate Under(e: Conflict, path: Path, visited: set<string>) {
    |path| < |e.path| && e.path[|path|] in visited
  }

  /** The conflicts recorded so far: each one that stands below a visited key, once. */
  ghost predicate AddedOf(added: seq<Conflict>, base: Val, ours: Val, theirs: Val, path: Path, visited: set<string>) {
    && Distinct(added)
    && forall e :: e in added <==> Recorded(e, base, ours, theirs, path) && Under(e, path, visited)
  }

  lemma RecordedBelow(e: Conflict, base: Val, ours: Val, theirs: Val, path: Path, key: string)
    requires ours.Dict? && theirs.Dict?
    ensures Recorded(e, Get(base, key), Get(ours, key), Get(theirs, key), path + [key])
       <==> Recorded(e, base, ours, theirs, path) && Under(e, path, {key})
  {
    if path <= e.path && Under(e, path, {key}) {
      var q := e.path[|path|..];
      assert q[0] == key && q[1..] == e.path[|path + [key]|..];
      assert path + [key] <= e.path;
      CollisionBelow(base, ours, theirs, q);
    }
  }

  lemma AddedStep(
    before: seq<Conflict>, more: seq<Conflict>, base: Val, ours: Val, theirs: Val, path: Path,
    visited: set<string>, key: string)
    requires ours.Dict? && theirs.Dict? && key !in visited
    requires AddedOf(before, base, ours, theirs, path, visited)
    requires Distinct(more)
    requires forall e :: e in more <==> Recorded(e, Get(base, key), Get(ours, key), Get(theirs, key), path + [key])
    ensures AddedOf(before + more, base, ours, theirs, path, visited + {key})
  {
    hide Recorded;
    forall e
      ensures e in more <==> Recorded(e, base, ours, theirs, path) && Under(e, path, {key})
    {
      RecordedBelow(e, base, ours, theirs, path, key);
    }
    forall i, j | 0 <= i < |before| && 0 <= j < |more|
      ensures before[i].path != more[j].path
    {
      assert before[i] in before && more[j] in more;
      assert Under(before[i], path, visited) && Under(more[j], path, {key});
    }
  }

  lemma {:induction false} NothingThere(q: Path)
    ensures At(Missing, q) == Missing
    decreases q
  {
    if q != [] { NothingThere(q[1..]); }
  }

  /** Once every key is visited no conflict is left out. */
  lemma AllVisited(added: seq<Conflict>, base: Val, ours: Val, theirs: Val, path: Path)
    requires ours.Dict? && theirs.Dict?
    requires AddedOf(added, base, ours, theirs, path, ours.fields.Keys + theirs.fields.Keys)
    ensures Distinct(added) && forall e :: e in added <==> Recorded(e, base, ours, theirs, path)
  {
    forall e | Recorded(e, base, ours, theirs, path)
      ensures Under(e, path, ours.fields.Keys + theirs.fields.Keys)
    {
      var q := e.path[|path|..];
      assert q != [] && e.path[|path|] == q[0];
      NothingThere(q[1..]);
    }
  }

  /** Where the recursion stops, at most this one conflict is to be recorded. */
  lemma RecordedHere(base: Val, ours: Val, theirs: Val, path: Path)
    requires !BothChanged(base, ours, theirs) || !ours.Dict? || !theirs.Dict?
    ensures forall e :: Recorded(e, base, ours, theirs, path) <==>
              BothChanged(base, ours, theirs) && !EndsInWorkspaces(path) && e == Conflict(path, ours, theirs)
  {
    forall e
      ensures Recorded(e, base, ours, theirs, path) <==>
              BothChanged(base, ours, theirs) && !EndsInWorkspaces(path) && e == Conflict(path, ours, theirs)
    {
      if path <= e.path {
        var q := e.path[|path|..];
        assert e.path == path + q;
        if q == [] {
          assert e.path == path;
        } else if Collision(base, ours, theirs, q) {
          CollisionReached(base, ours, theirs, q);
        }
      }
    }
  }

  /**
   * The program's recursion: every collision but one at a `workspaces` key is appended to the
   * conflicts once, with both sides' values.
   */
  method MergeInto(base: Val, ours: Val, theirs: Val, path: Path, conflicts: seq<Conflict>, workspaces: Val)
    returns (merged: Val, after: seq<Conflict>)
    ensures merged == Merge(base, ours, theirs, path, workspaces)
    ensures conflicts <= after && Distinct(after[|conflicts|..])
    ensures forall e :: e in after[|conflicts|..] <==> Recorded(e, base, ours, theirs, path)
    ensures ours != theirs && theirs != base && ours != base && !(ours.Dict? && theirs.Dict?) ==>
      var taken := path != [] && path[|path| - 1] == "workspaces";
      && merged == (if taken then workspaces else theirs)
      && after == conflicts + (if taken then [] else [Conflict(path, ours, theirs)])
    decreases if ours.Missing? then 0 else 1, ours, 1
  {
    hide Recorded, FieldsOf, AddedOf, Merge;
    if ours == theirs || theirs == base {
      RecordedHere(base, ours, theirs, path);
      MergeStops(base, ours, theirs, path, workspaces);
      return ours, conflicts;
    }
    if ours == base {
      RecordedHere(base, ours, theirs, path);
      MergeStops(base, ours, theirs, path, workspaces);
      return theirs, conflicts;
    }
    if ours.Dict? && theirs.Dict? {
      var fields;
      fields, after := MergeFields(base, ours, theirs, path, conflicts, workspaces);
      AllVisited(after[|conflicts|..], base, ours, theirs, path);
      FieldsComplete(fields, base, ours, theirs, path, workspaces);
      return Dict(fields), after;
    }
    RecordedHere(base, ours, theirs, path);
    MergeStops(base, ours, theirs, path, workspaces);
    if EndsInWorkspaces(path) { return workspaces, conflicts; }
    return theirs, conflicts + [Conflict(path, ours, theirs)];
  }

  /** The loop over the keys of the two objects, which may come in any order. */
  method MergeFields(base: Val, ours: Val, theirs: Val, path: Path, conflicts: seq<Conflict>, workspaces: Val)
    returns (merged: map<string, Val>, after: seq<Conflict>)
    requires ours.Dict? && theirs.Dict?
    ensures FieldsOf(merged, base, ours, theirs, path, workspaces, ours.fields.Keys + theirs.fields.Keys)
    ensures conflicts <= after
    ensures AddedOf(after[|conflicts|..], base, ours, theirs, path, ours.fields.Keys + theirs.fields.Keys)
    decreases 1, ours, 0
  {
    hide Recorded, FieldsOf, AddedOf, Merge;
    var keys := ours.fields.Keys + theirs.fields.Keys;
    var todo := keys;
    merged, after := map[], conflicts;
    NothingVisited(base, ours, theirs, path, workspaces);
    assert keys - todo == {} && after[|conflicts|..] == [];
    while todo != {}
      invariant todo <= keys && conflicts <= after
      invariant FieldsOf(merged, base, ours, theirs, path, workspaces, keys - todo)
      invariant AddedOf(after[|conflicts|..], base, ours, theirs, path, keys - todo)
    {
      var key :| key in todo;
      ghost var before := after;
      var value;
      value, after := MergeInto(Get(base, key), Get(ours, key), Get(theirs, key), path + [key], after, workspaces);
      assert after[|conflicts|..] == before[|conflicts|..] + after[|before|..];
      AddedStep(before[|conflicts|..], after[|before|..], base, ours, theirs, path, keys - todo, key);
      FieldsStep(merged, base, ours, theirs, path, workspaces, keys - todo, key);
      if value != Missing { merged := merged[key := value]; }
      assert keys - (todo - {key}) == keys - todo + {key};
      todo := todo - {key};
    }
    assert keys - todo == keys;
  }

  lemma MergeStops(base: Val, ours: Val, theirs: Val, path: Path, workspaces: Val)
    requires !BothChanged(base, ours, theirs) || !ours.Dict? || !theirs.Dict?
    ensures Merge(base, ours, theirs, path, workspaces)
         == if ours == theirs || theirs == base then ours else if ours == base then theirs
            else if EndsInWorkspaces(path) then workspaces else theirs
  {
  }

  lemma NothingVisited(base: Val, ours: Val, theirs: Val, path: Path, workspaces: Val)
    ensures FieldsOf(map[], base, ours, theirs, path, workspaces, {})
    ensures AddedOf([], base, ours, theirs, path, {})
  {
  }

  lemma FieldsStep(
    fields: map<string, Val>, base: Val, ours: Val, theirs: Val, path: Path, workspaces: Val,
    visited: set<string>, key: string)
    requires FieldsOf(fields, base, ours, theirs, path, workspaces, visited) && key !in visited
    ensures var value := Merge(Get(base, key), Get(ours, key), Get(theirs, key), path + [key], workspaces);
            FieldsOf(if value != Missing then fields[key := value] else fields, base, ours, theirs, path, workspaces,
                     visited + {key})
  {
  }

  lemma FieldsComplete(
    fields: map<string, Val>, base: Val, ours: Val, theirs: Val, path: Path, workspaces: Val)
    requires BothChanged(base, ours, theirs) && ours.Dict? && theirs.Dict?
    requires FieldsOf(fields, base, ours, theirs, path, workspaces, ours.fields.Keys + theirs.fields.Keys)
    ensures Merge(base, ours, theirs, path, workspaces) == Dict(fields)
  {
    hide Merge;
    var merged := Merge(base, ours, theirs, path, workspaces);
    MergesObjects(base, ours, theirs, path, workspaces);
    forall k
      ensures k in merged.fields <==> k in fields
      ensures k in fields ==> merged.fields[k] == fields[k]
    {
      FieldMerged(base, ours, theirs, path, workspaces, k);
      assert Get(merged, k) != Missing ==> k in merged.fields;
      assert k !in ours.fields.Keys + theirs.fields.Keys ==> Get(merged, k) == Missing by {
        MissingStays(Get(base, k), path + [k], workspaces);
      }
    }
    assert merged.fields == fields;
  }

  lemma MergesObjects(base: Val, ours: Val, theirs: Val, path: Path, workspaces: Val)
    requires BothChanged(base, ours, theirs) && ours.Dict? && theirs.Dict?
    ensures Tight(Merge(base, ours, theirs, path, workspaces))
  {
  }

  lemma MissingStays(base: Val, path: Path, workspaces: Val)
    ensures Merge(base, Missing, Missing, path, workspaces) == Missing
  {
  }
}
