/** Merging the lockfile a second time, against the same base and the same upstream. */
module MergeAbsorption {
  import opened MergeLockfile

  /** Every upstream change is in `ours` already: the value itself, or an object with what changed inside. */
  ghost predicate Carries(base: Val, ours: Val, theirs: Val) {
    forall r :: At(theirs, r) != At(base, r) ==>
      At(ours, r) == At(theirs, r) || (At(ours, r).Dict? && At(theirs, r).Dict?)
  }

  /**
   * The list, put where both sides changed it, is there to stay: as an object against an object it
   * carries upstream's changes, and otherwise it is not what the base had.
   */
  ghost predicate Lasting(base: Val, workspaces: Val, theirs: Val) {
    if workspaces.Dict? && theirs.Dict? then Carries(base, workspaces, theirs) else base != workspaces
  }

  /** The list lasts wherever a both-changed `workspaces` key takes it. */
  ghost predicate Safe(base: Val, ours: Val, theirs: Val, path: Path, workspaces: Val) {
    forall q :: Collision(base, ours, theirs, q) && EndsInWorkspaces(path + q) ==>
      Lasting(At(base, q), workspaces, At(theirs, q))
  }

  lemma SafeBelow(base: Val, ours: Val, theirs: Val, path: Path, workspaces: Val, k: string)
    requires Safe(base, ours, theirs, path, workspaces) && ours.Dict? && theirs.Dict?
    ensures Safe(Get(base, k), Get(ours, k), Get(theirs, k), path + [k], workspaces)
  {
    forall q | Collision(Get(base, k), Get(ours, k), Get(theirs, k), q) && EndsInWorkspaces(path + [k] + q)
      ensures Lasting(At(Get(base, k), q), workspaces, At(Get(theirs, k), q))
    {
      assert ([k] + q)[1..] == q;
      assert path + [k] + q == path + ([k] + q);
      CollisionBelow(base, ours, theirs, [k] + q);
    }
  }

  /** Two different objects differ at a key. */
  lemma Difference(a: Val, b: Val) returns (k: string)
    requires a.Dict? && b.Dict? && a != b && Clean(a) && Clean(b)
    ensures Get(a, k) != Get(b, k)
    ensures Clean(Get(a, k)) && Clean(Get(b, k))
  {
    if forall j :: Get(a, j) == Get(b, j) { SameFields(a, b); }
    k :| Get(a, k) != Get(b, k);
  }

  // ---------------------------------------------------------------------------
  // At one place
  // ---------------------------------------------------------------------------

  lemma CarriesBelow(base: Val, ours: Val, theirs: Val, k: string)
    requires Carries(base, ours, theirs)
    ensures Carries(Get(base, k), Get(ours, k), Get(theirs, k))
  {
    forall r | At(Get(theirs, k), r) != At(Get(base, k), r)
      ensures At(Get(ours, k), r) == At(Get(theirs, k), r)
           || (At(Get(ours, k), r).Dict? && At(Get(theirs, k), r).Dict?)
    {
      assert ([k] + r)[1..] == r;
      assert At(theirs, [k] + r) != At(base, [k] + r);
    }
  }

  /** A side that carries every upstream change absorbs the merge. */
  lemma {:induction false} CarriesAbsorbs(base: Val, ours: Val, theirs: Val, path: Path, workspaces: Val)
    requires Clean(base) && Clean(ours) && Clean(theirs) && Carries(base, ours, theirs)
    ensures Merge(base, ours, theirs, path, workspaces) == ours
    decreases if ours.Missing? then 0 else 1, ours
  {
    hide Carries, Merge;
    CarriesHere(base, ours, theirs);
    if theirs == base || ours == theirs {
      MergeStops(base, ours, theirs, path, workspaces);
    } else if ours == base {
      var k := Difference(base, theirs);
      CarriesBelow(base, ours, theirs, k);
      CarriesAbsorbs(Get(base, k), Get(ours, k), Get(theirs, k), path + [k], workspaces);
      TakesTheirs(Get(base, k), Get(theirs, k), path + [k], workspaces);
    } else {
      var merged := Merge(base, ours, theirs, path, workspaces);
      forall k
        ensures Get(merged, k) == Get(ours, k)
      {
        FieldMerged(base, ours, theirs, path, workspaces, k);
        CarriesBelow(base, ours, theirs, k);
        if k in ours.fields {
          CarriesAbsorbs(Get(base, k), Get(ours, k), Get(theirs, k), path + [k], workspaces);
        } else if k in theirs.fields {
          CarriesAbsorbs(Get(base, k), Get(ours, k), Get(theirs, k), path + [k], workspaces);
        } else {
          MissingStays(Get(base, k), path + [k], workspaces);
        }
      }
      MergesObjects(base, ours, theirs, path, workspaces);
      SameFields(merged, ours);
    }
  }

  lemma CarriesHere(base: Val, ours: Val, theirs: Val)
    requires Carries(base, ours, theirs)
    ensures theirs == base || ours == theirs || (ours.Dict? && theirs.Dict?)
  {
    assert At(theirs, []) != At(base, []) ==>
        At(ours, []) == At(theirs, []) || (At(ours, []).Dict? && At(theirs, []).Dict?);
  }

  lemma TakesTheirs(base: Val, theirs: Val, path: Path, workspaces: Val)
    ensures Merge(base, base, theirs, path, workspaces) == theirs
  {
  }

  /** A value does not contain itself. */
  lemma {:induction false} NothingInItself(v: Val, r: Path)
    requires r != [] && At(v, r) == v
    ensures v == Missing
    decreases v
  {
    var k, rest := r[0], r[1..];
    if v.Dict? && k in v.fields {
      var w := v.fields[k];
      AtConcat(w, rest, [k]);
      assert [k][1..] == [];
      assert At(v, [k]) == w;
      NothingInItself(w, rest + [k]);
      NothingThere(rest);
    } else {
      NothingThere(rest);
    }
  }

  /** Where the list takes the place of both sides, a second merge keeps it exactly when it is lasting. */
  lemma LastingExactly(base: Val, theirs: Val, path: Path, workspaces: Val)
    requires Clean(base) && Clean(theirs) && Clean(workspaces)
    requires theirs != base && EndsInWorkspaces(path)
    ensures Merge(base, workspaces, theirs, path, workspaces) == workspaces <==> Lasting(base, workspaces, theirs)
  {
    hide Carries;
    if workspaces.Dict? && theirs.Dict? {
      if Carries(base, workspaces, theirs) {
        CarriesAbsorbs(base, workspaces, theirs, path, workspaces);
      } else if Merge(base, workspaces, theirs, path, workspaces) == workspaces {
        KeptCarries(base, theirs, path, workspaces);
      }
    }
  }

  lemma KeptCarries(base: Val, theirs: Val, path: Path, workspaces: Val)
    requires workspaces.Dict? && theirs.Dict? && Merge(base, workspaces, theirs, path, workspaces) == workspaces
    ensures Carries(base, workspaces, theirs)
  {
    hide Merge;
    forall r | At(theirs, r) != At(base, r)
      ensures At(workspaces, r) == At(theirs, r) || (At(workspaces, r).Dict? && At(theirs, r).Dict?)
    {
      if Collides(base, workspaces, theirs, r) {
        var i :| 0 <= i <= |r| && Collision(base, workspaces, theirs, r[..i]);
        assert r[..i][..i] == r[..i] && r[..i][i..] == [];
        CollisionDecides(base, workspaces, theirs, path, workspaces, r[..i], i);
        NothingInItself(workspaces, r[..i]);
      } else {
        FreeDecides(base, workspaces, theirs, path, workspaces, r);
      }
    }
  }

  // ---------------------------------------------------------------------------
  // Over the whole tree
  // ---------------------------------------------------------------------------

  lemma SafeHere(base: Val, ours: Val, theirs: Val, path: Path, workspaces: Val)
    requires Clean(base) && Clean(theirs) && Clean(workspaces)
    requires Safe(base, ours, theirs, path, workspaces) && BothChanged(base, ours, theirs)
    requires (!ours.Dict? || !theirs.Dict?) && EndsInWorkspaces(path)
    ensures Merge(base, workspaces, theirs, path, workspaces) == workspaces != base
  {
    assert path + [] == path;
    assert Collision(base, ours, theirs, []);
    LastingExactly(base, theirs, path, workspaces);
    TakesTheirs(base, theirs, path, workspaces);
  }

  /** If upstream changed the value, the merged value differs from the base. */
  lemma {:induction false} MergedMoves(base: Val, ours: Val, theirs: Val, path: Path, workspaces: Val)
    requires Clean(base) && Clean(theirs) && Clean(workspaces) && theirs != base
    requires Safe(base, ours, theirs, path, workspaces)
    ensures Merge(base, ours, theirs, path, workspaces) != base
    decreases if ours.Missing? then 0 else 1, ours
  {
    hide Merge, Safe;
    if !BothChanged(base, ours, theirs) || !ours.Dict? || !theirs.Dict? {
      MergeStops(base, ours, theirs, path, workspaces);
      if BothChanged(base, ours, theirs) && EndsInWorkspaces(path) {
        SafeHere(base, ours, theirs, path, workspaces);
      }
    } else {
      MergesObjects(base, ours, theirs, path, workspaces);
      if base.Dict? {
        var k := Difference(base, theirs);
        SafeBelow(base, ours, theirs, path, workspaces, k);
        FieldMerged(base, ours, theirs, path, workspaces, k);
        if k in ours.fields.Keys + theirs.fields.Keys {
          MergedMoves(Get(base, k), Get(ours, k), Get(theirs, k), path + [k], workspaces);
        } else {
          MissingStays(Get(base, k), path + [k], workspaces);
        }
      }
    }
  }

  /** Merging again with the same base and upstream changes nothing. */
  lemma {:induction false} Absorbs(base: Val, ours: Val, theirs: Val, path: Path, workspaces: Val)
    requires Clean(base) && Clean(theirs) && Clean(workspaces) && Safe(base, ours, theirs, path, workspaces)
    ensures var merged := Merge(base, ours, theirs, path, workspaces);
            Merge(base, merged, theirs, path, workspaces) == merged
    decreases if ours.Missing? then 0 else 1, ours
  {
    hide Merge, Safe;
    var merged := Merge(base, ours, theirs, path, workspaces);
    if !BothChanged(base, ours, theirs) || !ours.Dict? || !theirs.Dict? {
      MergeStops(base, ours, theirs, path, workspaces);
      if BothChanged(base, ours, theirs) && EndsInWorkspaces(path) {
        SafeHere(base, ours, theirs, path, workspaces);
      } else {
        MergeStops(base, merged, theirs, path, workspaces);
      }
    } else {
      MergedMoves(base, ours, theirs, path, workspaces);
      MergesObjects(base, ours, theirs, path, workspaces);
      if merged == theirs {
        MergeStops(base, merged, theirs, path, workspaces);
      } else {
        FieldsAbsorb(base, ours, theirs, path, workspaces);
      }
    }
  }

  /** The case of two objects, field by field. */
  lemma {:induction false} FieldsAbsorb(base: Val, ours: Val, theirs: Val, path: Path, workspaces: Val)
    requires Clean(base) && Clean(theirs) && Clean(workspaces) && Safe(base, ours, theirs, path, workspaces)
    requires ours.Dict? && theirs.Dict? && BothChanged(base, ours, theirs)
    requires var merged := Merge(base, ours, theirs, path, workspaces);
             Tight(merged) && BothChanged(base, merged, theirs)
    ensures var merged := Merge(base, ours, theirs, path, workspaces);
            Merge(base, merged, theirs, path, workspaces) == merged
    decreases if ours.Missing? then 0 else 1, ours, 0
  {
    hide Merge, Safe;
    var merged := Merge(base, ours, theirs, path, workspaces);
    var again := Merge(base, merged, theirs, path, workspaces);
    forall k
      ensures Get(again, k) == Get(merged, k)
    {
      FieldMerged(base, ours, theirs, path, workspaces, k);
      FieldMerged(base, merged, theirs, path, workspaces, k);
      SafeBelow(base, ours, theirs, path, workspaces, k);
      if k in ours.fields.Keys + theirs.fields.Keys {
        Absorbs(Get(base, k), Get(ours, k), Get(theirs, k), path + [k], workspaces);
      } else {
        MissingStays(Get(base, k), path + [k], workspaces);
      }
    }
    MergesObjects(base, merged, theirs, path, workspaces);
    SameFields(again, merged);
  }

  /** What a second merge keeps as a whole it keeps at every place upstream changed. */
  lemma {:induction false} AbsorbsBelow(base: Val, ours: Val, theirs: Val, path: Path, workspaces: Val, q: Path)
    requires Merge(base, ours, theirs, path, workspaces) == ours && Open(ours, theirs, q)
    requires At(theirs, q) != At(base, q)
    ensures Merge(At(base, q), At(ours, q), At(theirs, q), path + q, workspaces) == At(ours, q)
    decreases q
  {
    hide Merge;
    if q == [] {
      assert path + q == path;
    } else {
      var k, rest := q[0], q[1..];
      if BothChanged(base, ours, theirs) {
        FieldMerged(base, ours, theirs, path, workspaces, k);
      } else {
        MergeStops(base, ours, theirs, path, workspaces);
        MergeStops(Get(base, k), Get(ours, k), Get(theirs, k), path + [k], workspaces);
      }
      AbsorbsBelow(Get(base, k), Get(ours, k), Get(theirs, k), path + [k], workspaces, rest);
      assert path + [k] + rest == path + q;
    }
  }

  /** Above a collision the merged value is an object, as upstream's is. */
  lemma MergedOpen(base: Val, ours: Val, theirs: Val, path: Path, workspaces: Val, q: Path)
    requires Collision(base, ours, theirs, q)
    ensures Open(Merge(base, ours, theirs, path, workspaces), theirs, q)
  {
    hide Merge;
    var merged := Merge(base, ours, theirs, path, workspaces);
    OpenMeans(ours, theirs, q);
    OpenMeans(merged, theirs, q);
    forall i | 0 <= i < |q|
      ensures At(merged, q[..i]).Dict? && At(theirs, q[..i]).Dict?
    {
      assert At(ours, q[..i]).Dict? && At(theirs, q[..i]).Dict?;
      forall j | 0 <= j <= i
        ensures !Collision(base, ours, theirs, q[..i][..j])
      {
        assert q[..i][..j] == q[..j];
        assert At(ours, q[..j]).Dict? && At(theirs, q[..j]).Dict?;
      }
      FreeDecides(base, ours, theirs, path, workspaces, q[..i]);
    }
  }

  /** A part of what was read from JSON is such a value too. */
  lemma {:induction false} CleanBelow(v: Val, q: Path)
    requires Clean(v)
    ensures Clean(At(v, q))
    decreases q
  {
    if q != [] { CleanBelow(Get(v, q[0]), q[1..]); }
  }

  /** Merging again changes nothing exactly when the `workspaces` list lasts wherever it was put. */
  lemma {:induction false} AbsorptionExact(base: Val, ours: Val, theirs: Val, path: Path, workspaces: Val)
    requires Clean(base) && Clean(theirs) && Clean(workspaces)
    ensures var merged := Merge(base, ours, theirs, path, workspaces);
            && (Merge(base, merged, theirs, path, workspaces) == merged <==>
                forall q :: Collision(base, ours, theirs, q) && EndsInWorkspaces(path + q) ==>
                  Lasting(At(base, q), workspaces, At(theirs, q)))
  {
    hide Merge, Lasting;
    var merged := Merge(base, ours, theirs, path, workspaces);
    if Safe(base, ours, theirs, path, workspaces) {
      Absorbs(base, ours, theirs, path, workspaces);
    } else if Merge(base, merged, theirs, path, workspaces) == merged {
      var q :| Collision(base, ours, theirs, q) && EndsInWorkspaces(path + q)
               && !Lasting(At(base, q), workspaces, At(theirs, q));
      AbsorbedLasts(base, ours, theirs, path, workspaces, q);
    }
  }

  /** Where the list was put and a second merge keeps everything, it is lasting. */
  lemma AbsorbedLasts(base: Val, ours: Val, theirs: Val, path: Path, workspaces: Val, q: Path)
    requires Clean(base) && Clean(theirs) && Clean(workspaces)
    requires Collision(base, ours, theirs, q) && EndsInWorkspaces(path + q)
    requires var merged := Merge(base, ours, theirs, path, workspaces);
             Merge(base, merged, theirs, path, workspaces) == merged
    ensures Lasting(At(base, q), workspaces, At(theirs, q))
  {
    hide Merge, Lasting, Open;
    PutThere(base, ours, theirs, path, workspaces, q);
    MergedOpen(base, ours, theirs, path, workspaces, q);
    AbsorbsBelow(base, Merge(base, ours, theirs, path, workspaces), theirs, path, workspaces, q);
    CleanBelow(base, q);
    CleanBelow(theirs, q);
    LastingExactly(At(base, q), At(theirs, q), path + q, workspaces);
  }

  lemma PutThere(base: Val, ours: Val, theirs: Val, path: Path, workspaces: Val, q: Path)
    requires Collision(base, ours, theirs, q) && EndsInWorkspaces(path + q)
    ensures At(Merge(base, ours, theirs, path, workspaces), q) == workspaces
  {
    hide Merge;
    assert q[..|q|] == q && q[|q|..] == [];
    CollisionDecides(base, ours, theirs, path, workspaces, q, |q|);
  }

  /** The second merge records no conflict. */
  lemma SecondMergeQuiet(base: Val, ours: Val, theirs: Val, path: Path, workspaces: Val, q: Path)
    requires Safe(base, ours, theirs, path, workspaces)
    requires Collision(base, Merge(base, ours, theirs, path, workspaces), theirs, q)
    ensures EndsInWorkspaces(path + q)
  {
    hide Merge;
    if Overridden(base, ours, theirs, path, q) {
      var i :| 0 <= i <= |q| && Collision(base, ours, theirs, q[..i]) && EndsInWorkspaces(path + q[..i]);
      if i < |q| {
        QuietBelow(base, ours, theirs, path, workspaces, q, i);
      } else {
        assert q[..i] == q;
      }
    } else {
      UpstreamReaches(base, ours, theirs, path, workspaces, q);
    }
  }

  /** A lasting list leaves nothing for a second merge to collide with inside it. */
  lemma QuietBelow(base: Val, ours: Val, theirs: Val, path: Path, workspaces: Val, q: Path, i: nat)
    requires i < |q| && Collision(base, ours, theirs, q[..i]) && EndsInWorkspaces(path + q[..i])
    requires Lasting(At(base, q[..i]), workspaces, At(theirs, q[..i]))
    ensures !Collision(base, Merge(base, ours, theirs, path, workspaces), theirs, q)
  {
    hide Merge, Open;
    var merged, inside := Merge(base, ours, theirs, path, workspaces), q[i..];
    assert q == q[..i] + inside;
    PutThere(base, ours, theirs, path, workspaces, q[..i]);
    AtConcat(merged, q[..i], inside);
    AtConcat(theirs, q[..i], inside);
    AtConcat(base, q[..i], inside);
    OpenMeans(merged, theirs, q);
    if Open(merged, theirs, q) {
      assert At(merged, q[..i]).Dict? && At(theirs, q[..i]).Dict?;
    }
  }

  /** The list the base had is undone by a second merge. */
  lemma {:induction false} AbsorptionCounterexample(base: Val, ours: Val, theirs: Val)
    requires base == Dict(map[WORKSPACES := Leaf("a")])
    requires ours == Dict(map[WORKSPACES := Leaf("b")])
    requires theirs == Dict(map[WORKSPACES := Leaf("c")])
    ensures var merged := Merge(base, ours, theirs, [], Leaf("a"));
            At(merged, [WORKSPACES]) == Leaf("a") && Merge(base, merged, theirs, [], Leaf("a")) != merged
  {
    hide Merge;
    var q := [WORKSPACES];
    assert q[1..] == [] && [] + q == q;
    assert Get(base, q[0]) == Leaf("a") && Get(ours, q[0]) == Leaf("b") && Get(theirs, q[0]) == Leaf("c");
    CollisionBelow(base, ours, theirs, q);
    assert Collision(Leaf("a"), Leaf("b"), Leaf("c"), []);
    PutThere(base, ours, theirs, [], Leaf("a"), q);
    AbsorptionExact(base, ours, theirs, [], Leaf("a"));
  }
}
