/** Job variables and dynamic variables that come from one placement have nested maps in common.
    What the governor's merge into the first does to the second, and what of the second is
    left to merge afterwards. */
module SharedMaps {
  import opened Json
  import opened DeepMerge
  import opened MapHeap

  /** s and d share maps only at the same places; the governor's are its own. */
  ghost predicate Payload(s: Shape, g: Shape, d: Shape)
  {
    && IsTree(s) && IsTree(g) && IsTree(d)
    && Aligned(s, d) && Foot(s) !! Foot(g) && Foot(g) !! Foot(d)
  }

  ghost predicate AllSub(s: Shape, g: Shape, d: Shape, k: string)
  {
    SubAt(s, k) && SubAt(g, k) && SubAt(d, k)
  }

  lemma PayloadBelow(s: Shape, g: Shape, d: Shape, k: string)
    requires Payload(s, g, d) && AllSub(s, g, d, k)
    ensures Payload(s.kids[k].shape, g.kids[k].shape, d.kids[k].shape)
  {
    PartsAt(s, k);
    PartsAt(g, k);
    PartsAt(d, k);
  }

  /** d after g has been laid over s: the maps that d shares with s have changed with it. */
  ghost function After(s: Shape, g: Shape, d: Shape): Shape
    decreases d, 1
  {
    if s.node == d.node then Laid(d, g) else Shape(d.node, map k | k in d.kids :: AfterKid(s, g, d, k))
  }

  ghost function AfterKid(s: Shape, g: Shape, d: Shape, k: string): Kid
    requires k in d.kids
    decreases d, 0
  {
    if AllSub(s, g, d, k) then Sub(After(s.kids[k].shape, g.kids[k].shape, d.kids[k].shape)) else d.kids[k]
  }

  lemma AfterNode(s: Shape, g: Shape, d: Shape)
    ensures After(s, g, d).node == d.node
  {
  }

  /** Separate structures do not change each other. */
  lemma {:induction false} AfterApart(s: Shape, g: Shape, d: Shape)
    requires Foot(s) !! Foot(d)
    ensures After(s, g, d) == d
    decreases d
  {
    PartsAt(s, "");
    PartsAt(d, "");
    forall k | AllSub(s, g, d, k) ensures AfterKid(s, g, d, k) == d.kids[k] {
      PartsAt(s, k);
      PartsAt(d, k);
      AfterApart(s.kids[k].shape, g.kids[k].shape, d.kids[k].shape);
    }
    assert After(s, g, d).kids == d.kids;
  }

  lemma {:induction false} AfterFoot(s: Shape, g: Shape, d: Shape)
    requires Aligned(s, d)
    ensures Foot(After(s, g, d)) <= Foot(d) + Foot(Laid(s, g))
    decreases d
  {
    var a := After(s, g, d);
    PartsAt(a, "");
    PartsAt(d, "");
    if s.node != d.node {
      forall n | n in KidsFoot(a) ensures n in Foot(d) + Foot(Laid(s, g)) {
        var k := KeyOfMap(a, n);
        AfterFootAt(s, g, d, k);
        PartsAt(d, k);
        PartsAt(Laid(s, g), k);
      }
    }
  }

  lemma {:induction false} AfterFootAt(s: Shape, g: Shape, d: Shape, k: string)
    requires Aligned(s, d) && s.node != d.node
    ensures FootAt(After(s, g, d), k) <= FootAt(d, k) + (if AllSub(s, g, d, k) then FootAt(Laid(s, g), k) else {})
    ensures FootAt(After(s, g, d), k) <= FootAt(d, k) + FootAt(s, k) + FootAt(g, k)
    decreases d, 0
  {
    if AllSub(s, g, d, k) {
      AfterFoot(s.kids[k].shape, g.kids[k].shape, d.kids[k].shape);
      assert Laid(s, g).kids[k] == LaidKid(s, g, k);
      LaidKidFoot(s, g, k);
    }
  }

  lemma {:induction false} AfterTree(s: Shape, g: Shape, d: Shape)
    requires Payload(s, g, d)
    ensures IsTree(After(s, g, d))
    decreases d
  {
    var a := After(s, g, d);
    if s.node == d.node {
      ApartAligned(d, g);
      LaidTree(d, g);
    } else {
      forall k | SubAt(a, k) ensures a.node !in Foot(a.kids[k].shape) && IsTree(a.kids[k].shape) {
        AfterFootAt(s, g, d, k);
        PartsAt(s, k);
        PartsAt(g, k);
        PartsAt(d, k);
        PartsAt(d, "");
        if AllSub(s, g, d, k) {
          PayloadBelow(s, g, d, k);
          AfterTree(s.kids[k].shape, g.kids[k].shape, d.kids[k].shape);
        }
      }
      forall j, k | SubAt(a, j) && SubAt(a, k) && j != k ensures Foot(a.kids[j].shape) !! Foot(a.kids[k].shape) {
        KeysCross(s, g, d, j, k);
        AfterFootAt(s, g, d, j);
        AfterFootAt(s, g, d, k);
      }
    }
  }

  /** Whatever is under one key of any of the three is apart from whatever is under another. */
  lemma KeysCross(s: Shape, g: Shape, d: Shape, j: string, k: string)
    requires Payload(s, g, d) && s.node != d.node && j != k
    ensures FootAt(s, j) + FootAt(g, j) + FootAt(d, j) !! FootAt(s, k) + FootAt(g, k) + FootAt(d, k)
  {
    hide Aligned, Touched;
    KeysApart(s, j, k);
    KeysApart(g, j, k);
    KeysApart(d, j, k);
    assert FootAt(s, j) + FootAt(d, j) !! FootAt(g, k) && FootAt(s, k) + FootAt(d, k) !! FootAt(g, j) by {
      PartsAt(s, j); PartsAt(s, k);
      PartsAt(g, j); PartsAt(g, k);
      PartsAt(d, j); PartsAt(d, k);
    }
    assert FootAt(s, j) !! FootAt(d, k) && FootAt(s, k) !! FootAt(d, j) by { AlignedApart(s, d, j, k); }
  }

  lemma AlignedApart(s: Shape, d: Shape, j: string, k: string)
    requires Aligned(s, d) && s.node != d.node && j != k
    ensures FootAt(s, j) !! FootAt(d, k) && FootAt(s, k) !! FootAt(d, j)
  {
  }

  /** What is merged in last still meets what is there only at the same places. */
  lemma {:induction false} AfterAligned(s: Shape, g: Shape, d: Shape)
    requires Payload(s, g, d)
    ensures Aligned(Laid(s, g), After(s, g, d))
    decreases d
  {
    var t, a := Laid(s, g), After(s, g, d);
    if s.node != d.node {
      AfterTops(s, g, d);
      forall j, k | j != k ensures FootAt(t, j) !! FootAt(a, k) {
        KeysCross(s, g, d, j, k);
        LaidKidFoot(s, g, j);
        AfterFootAt(s, g, d, k);
      }
      forall k | SubAt(t, k) && SubAt(a, k) ensures Aligned(t.kids[k].shape, a.kids[k].shape) {
        if AllSub(s, g, d, k) {
          PayloadBelow(s, g, d, k);
          AfterAligned(s.kids[k].shape, g.kids[k].shape, d.kids[k].shape);
        } else if k in g.kids {
          PartsAt(g, k);
          PartsAt(d, k);
          ApartAligned(g.kids[k].shape, d.kids[k].shape);
        }
      }
    }
  }

  lemma AfterTops(s: Shape, g: Shape, d: Shape)
    requires Payload(s, g, d) && s.node != d.node
    ensures s.node !in Foot(After(s, g, d)) && d.node !in Foot(Laid(s, g))
  {
    var t, a := Laid(s, g), After(s, g, d);
    LaidFoot(s, g);
    PartsAt(s, "");
    PartsAt(g, "");
    PartsAt(d, "");
    PartsAt(a, "");
    if s.node in KidsFoot(a) {
      var k := KeyOfMap(a, s.node);
      AfterFootAt(s, g, d, k);
      PartsAt(s, k);
      PartsAt(g, k);
      PartsAt(d, k);
    }
  }

  /** The maps of d that are not written hold what they held. */
  ghost predicate Kept(d: Shape, written: set<GoMap>)
    reads Foot(d)
  {
    forall p :: p in Parts(d) && p.node !in written ==> p.node.entries == Entries(p)
  }

  /** In the heap: once g has been laid over s, d looks like After says. */
  lemma {:induction false} AfterMatches(s: Shape, g: Shape, d: Shape)
    requires Payload(s, g, d) && Matches(Laid(s, g)) && Kept(d, Touched(s, g))
    ensures Matches(After(s, g, d))
    decreases d
  {
    if s.node != d.node {
      var a := After(s, g, d);
      TouchedInFoot(s, g);
      assert d in Parts(d);
      assert Entries(a) == Entries(d) by { AfterEntries(s, g, d); }
      MatchesByLevel(Laid(s, g));
      forall k | SubAt(a, k) ensures Matches(a.kids[k].shape) {
        assert a.kids[k] == AfterKid(s, g, d, k) && SubAt(d, k);
        KeptBelow(s, g, d, k);
        if AllSub(s, g, d, k) {
          PayloadBelow(s, g, d, k);
          assert Laid(s, g).kids[k] == LaidKid(s, g, k);
          AfterMatches(s.kids[k].shape, g.kids[k].shape, d.kids[k].shape);
        }
      }
      MatchesByLevel(a);
    }
  }

  lemma AfterEntries(s: Shape, g: Shape, d: Shape)
    requires s.node != d.node
    ensures Entries(After(s, g, d)) == Entries(d)
  {
    forall k | k in d.kids ensures Stored(AfterKid(s, g, d, k)) == Stored(d.kids[k]) {
      if AllSub(s, g, d, k) { AfterNode(s.kids[k].shape, g.kids[k].shape, d.kids[k].shape); }
    }
  }

  /** What is written under one key of d is written by the merge under that key. */
  lemma WrittenAt(s: Shape, g: Shape, d: Shape, k: string, n: GoMap)
    requires Payload(s, g, d) && s.node != d.node && n in FootAt(d, k) && n in Touched(s, g)
    ensures AllSub(s, g, d, k) && n in Touched(s.kids[k].shape, g.kids[k].shape)
  {
    hide IsTree;
    PartsAt(d, k);
    assert n != s.node;
    var j :| j in s.kids && SubAt(s, j) && SubAt(g, j) && n in Touched(s.kids[j].shape, g.kids[j].shape);
    TouchedInFoot(s.kids[j].shape, g.kids[j].shape);
    assert n in FootAt(s, j);
    assert j != k ==> FootAt(s, j) !! FootAt(d, k);
  }

  lemma KeptBelow(s: Shape, g: Shape, d: Shape, k: string)
    requires Payload(s, g, d) && s.node != d.node && SubAt(d, k) && Kept(d, Touched(s, g))
    ensures AllSub(s, g, d, k) ==> Kept(d.kids[k].shape, Touched(s.kids[k].shape, g.kids[k].shape))
    ensures !AllSub(s, g, d, k) ==> Matches(d.kids[k].shape)
  {
    hide Payload, Touched;
    PartsAt(d, k);
    forall p | p in Parts(d.kids[k].shape) && p.node in Touched(s, g)
      ensures AllSub(s, g, d, k) && p.node in Touched(s.kids[k].shape, g.kids[k].shape)
    {
      assert p.node in FootAt(d, k);
      WrittenAt(s, g, d, k, p.node);
    }
  }

  // ----- what of the dynamic variables is left to merge

  ghost predicate SameAt(t: Shape, d: Shape, k: string)
  {
    SubAt(t, k) && SubAt(d, k) && t.kids[k].shape.node == d.kids[k].shape.node
  }

  /** d without the maps that t holds at the same place: merging those does nothing. */
  ghost function Rest(t: Shape, d: Shape): Shape
    decreases d, 1
  {
    Shape(d.node, map k | k in d.kids && !SameAt(t, d, k) :: RestKid(t, d, k))
  }

  ghost function RestKid(t: Shape, d: Shape, k: string): Kid
    requires k in d.kids
    decreases d, 0
  {
    if SubAt(t, k) && SubAt(d, k) then Sub(Rest(t.kids[k].shape, d.kids[k].shape)) else d.kids[k]
  }

  lemma {:induction false} RestLaid(t: Shape, d: Shape)
    requires Aligned(t, d) && t.node != d.node
    ensures Laid(t, Rest(t, d)) == Laid(t, d)
    decreases d
  {
    var r := Rest(t, d);
    forall k | k in t.kids.Keys + d.kids.Keys
      ensures k in t.kids.Keys + r.kids.Keys && LaidKid(t, r, k) == LaidKid(t, d, k)
    {
      if SameAt(t, d, k) {
        LaidSelf(d.kids[k].shape, {});
      } else if k in d.kids {
        assert r.kids[k] == RestKid(t, d, k);
        if SubAt(t, k) && SubAt(d, k) { RestLaid(t.kids[k].shape, d.kids[k].shape); }
      }
    }
    assert Laid(t, r).kids == Laid(t, d).kids;
  }

  lemma {:induction false} RestOfApart(t: Shape, d: Shape)
    requires Foot(t) !! Foot(d)
    ensures Rest(t, d) == d
    decreases d
  {
    forall k | k in d.kids ensures !SameAt(t, d, k) && RestKid(t, d, k) == d.kids[k] {
      PartsAt(t, k);
      PartsAt(d, k);
      if SubAt(t, k) && SubAt(d, k) {
        PartsAt(t.kids[k].shape, "");
        PartsAt(d.kids[k].shape, "");
        RestOfApart(t.kids[k].shape, d.kids[k].shape);
      }
    }
    assert Rest(t, d).kids == d.kids;
  }

  lemma {:induction false} RestFoot(t: Shape, d: Shape)
    ensures Foot(Rest(t, d)) <= Foot(d)
    decreases d
  {
    var r := Rest(t, d);
    PartsAt(r, "");
    PartsAt(d, "");
    forall n | n in KidsFoot(r) ensures n in KidsFoot(d) {
      var k := KeyOfMap(r, n);
      RestFootAt(t, d, k);
      PartsAt(d, k);
    }
  }

  lemma {:induction false} RestFootAt(t: Shape, d: Shape, k: string)
    ensures FootAt(Rest(t, d), k) <= FootAt(d, k)
    decreases d, 0
  {
    if SubAt(t, k) && SubAt(d, k) {
      RestFoot(t.kids[k].shape, d.kids[k].shape);
    }
  }

  lemma {:induction false} RestTree(t: Shape, d: Shape)
    requires IsTree(d)
    ensures IsTree(Rest(t, d))
    decreases d
  {
    var r := Rest(t, d);
    forall k | SubAt(r, k) ensures r.node !in Foot(r.kids[k].shape) && IsTree(r.kids[k].shape) {
      assert SubAt(d, k) && r.kids[k] == RestKid(t, d, k);
      RestFootAt(t, d, k);
      if SubAt(t, k) { RestTree(t.kids[k].shape, d.kids[k].shape); }
    }
    forall j, k | SubAt(r, j) && SubAt(r, k) && j != k ensures Foot(r.kids[j].shape) !! Foot(r.kids[k].shape) {
      RestFootAt(t, d, j);
      RestFootAt(t, d, k);
      KeysApart(d, j, k);
    }
  }

  lemma {:induction false} RestApart(t: Shape, d: Shape)
    requires Aligned(t, d) && t.node != d.node
    ensures Foot(t) !! Foot(Rest(t, d))
    decreases d
  {
    var r := Rest(t, d);
    RestFoot(t, d);
    PartsAt(t, "");
    PartsAt(r, "");
    forall j, k ensures FootAt(t, j) !! FootAt(r, k) {
      RestFootAt(t, d, k);
      assert j != k ==> FootAt(t, j) !! FootAt(d, k);
      if j == k && SubAt(t, k) && SubAt(r, k) {
        assert SubAt(d, k) && r.kids[k] == RestKid(t, d, k);
        RestApart(t.kids[k].shape, d.kids[k].shape);
      }
    }
    forall n | n in KidsFoot(t) ensures n !in KidsFoot(r) {
      var j := KeyOfMap(t, n);
      if n in KidsFoot(r) {
        var k := KeyOfMap(r, n);
      }
    }
  }

  /** A merge of all of d writes, beyond that of the rest, only maps of d, and writes in them what they hold. */
  lemma {:induction false} RestTouched(t: Shape, d: Shape)
    requires Aligned(t, d) && t.node != d.node
    ensures Touched(t, Rest(t, d)) <= Touched(t, d) <= Touched(t, Rest(t, d)) + Foot(d)
    decreases d
  {
    var r := Rest(t, d);
    forall k, n | SubAt(t, k) && SubAt(d, k) && n in Touched(t.kids[k].shape, d.kids[k].shape)
      ensures n in Touched(t, r) + Foot(d)
    {
      PartsAt(d, k);
      if SameAt(t, d, k) {
        TouchedInFoot(t.kids[k].shape, d.kids[k].shape);
      } else {
        RestTouched(t.kids[k].shape, d.kids[k].shape);
        assert r.kids[k] == RestKid(t, d, k);
        TouchedAt(t, r, k);
      }
    }
    forall k, n | SubAt(t, k) && SubAt(r, k) && n in Touched(t.kids[k].shape, r.kids[k].shape)
      ensures n in Touched(t, d)
    {
      assert SubAt(d, k) && r.kids[k] == RestKid(t, d, k);
      RestTouched(t.kids[k].shape, d.kids[k].shape);
      TouchedAt(t, d, k);
    }
  }

  // ----- what of the job variables is still there under the governor's

  predicate Overridden(s: Shape, g: Shape, k: string)
  {
    k in g.kids && g.kids[k].Leaf?
  }

  /** s without what g replaces by something that is no map. */
  ghost function Prune(s: Shape, g: Shape): Shape
    decreases s, 1
  {
    Shape(s.node, map k | k in s.kids && !Overridden(s, g, k) :: PruneKid(s, g, k))
  }

  ghost function PruneKid(s: Shape, g: Shape, k: string): Kid
    requires k in s.kids
    decreases s, 0
  {
    if SubAt(s, k) && SubAt(g, k) then Sub(Prune(s.kids[k].shape, g.kids[k].shape)) else s.kids[k]
  }

  lemma {:induction false} PruneLaid(s: Shape, g: Shape)
    ensures Laid(Prune(s, g), g) == Laid(s, g)
    decreases s
  {
    var p := Prune(s, g);
    forall k | k in s.kids.Keys + g.kids.Keys
      ensures k in p.kids.Keys + g.kids.Keys && LaidKid(p, g, k) == LaidKid(s, g, k)
    {
      if k in s.kids && !Overridden(s, g, k) {
        assert p.kids[k] == PruneKid(s, g, k);
        if SubAt(s, k) && SubAt(g, k) { PruneLaid(s.kids[k].shape, g.kids[k].shape); }
      }
    }
    assert Laid(p, g).kids == Laid(s, g).kids;
  }

  lemma {:induction false} PruneFoot(s: Shape, g: Shape)
    ensures Foot(Prune(s, g)) <= Foot(s) && Foot(Prune(s, g)) <= Foot(Laid(s, g))
    decreases s
  {
    var p := Prune(s, g);
    PartsAt(p, "");
    PartsAt(s, "");
    PartsAt(Laid(s, g), "");
    forall n | n in KidsFoot(p) ensures n in KidsFoot(s) && n in KidsFoot(Laid(s, g)) {
      var k := KeyOfMap(p, n);
      PruneFootAt(s, g, k);
      PartsAt(s, k);
      PartsAt(Laid(s, g), k);
    }
  }

  lemma {:induction false} PruneFootAt(s: Shape, g: Shape, k: string)
    ensures FootAt(Prune(s, g), k) <= FootAt(s, k) && FootAt(Prune(s, g), k) <= FootAt(Laid(s, g), k)
    decreases s, 0
  {
    if SubAt(Prune(s, g), k) {
      assert SubAt(s, k) && Prune(s, g).kids[k] == PruneKid(s, g, k);
      assert Laid(s, g).kids[k] == LaidKid(s, g, k);
      if SubAt(g, k) { PruneFoot(s.kids[k].shape, g.kids[k].shape); }
    }
  }

  lemma {:induction false} PruneTree(s: Shape, g: Shape)
    requires IsTree(s)
    ensures IsTree(Prune(s, g))
    decreases s
  {
    var p := Prune(s, g);
    forall k | SubAt(p, k) ensures p.node !in Foot(p.kids[k].shape) && IsTree(p.kids[k].shape) {
      assert SubAt(s, k) && p.kids[k] == PruneKid(s, g, k);
      PruneFootAt(s, g, k);
      if SubAt(g, k) { PruneTree(s.kids[k].shape, g.kids[k].shape); }
    }
    forall j, k | SubAt(p, j) && SubAt(p, k) && j != k ensures Foot(p.kids[j].shape) !! Foot(p.kids[k].shape) {
      PruneFootAt(s, g, j);
      PruneFootAt(s, g, k);
      KeysApart(s, j, k);
    }
  }

  /** The rest of the dynamic variables behind the governor's merge. */
  ghost function Left(s: Shape, g: Shape, d: Shape): Shape
  {
    Rest(Laid(s, g), After(s, g, d))
  }

  /** What is left is apart from what is there, and merging it does what merging all of it does. */
  lemma LeftApart(s: Shape, g: Shape, d: Shape)
    requires Payload(s, g, d) && s.node != d.node
    ensures var p, r := Prune(s, g), Left(s, g, d);
            && IsTree(p) && IsTree(r) && Foot(p) !! Foot(g) && Foot(p) !! Foot(r) && Foot(g) !! Foot(r)
            && p.node == s.node && r.node == d.node && Foot(p) <= Foot(s) && Foot(r) <= Foot(d)
            && Laid(p, g) == Laid(s, g) && Laid(Laid(p, g), r) == Laid(Laid(s, g), After(s, g, d))
  {
    var a := After(s, g, d);
    AfterNode(s, g, d);
    AfterFoot(s, g, d);
    AfterTree(s, g, d);
    AfterAligned(s, g, d);
    PruneTree(s, g);
    PruneFoot(s, g);
    PruneLaid(s, g);
    RestTree(Laid(s, g), a);
    RestFoot(Laid(s, g), a);
    RestApart(Laid(s, g), a);
    RestLaid(Laid(s, g), a);
  }

  // ----- where the sharing comes from

  /** Variables extracted from a placement are merged into the job variables; a second
      extraction is aligned with the first. Then it is aligned with the job variables, and so
      all of the payload is as BuildJobExtraVars asks for it. */
  lemma {:induction false} LookupAligns(jobVars: Shape, extracted: Shape, dynamic: Shape)
    requires IsTree(jobVars) && IsTree(extracted) && IsTree(dynamic)
    requires Foot(jobVars) !! Foot(extracted) && Foot(jobVars) !! Foot(dynamic) && Aligned(extracted, dynamic)
    ensures IsTree(Laid(jobVars, extracted)) && Aligned(Laid(jobVars, extracted), dynamic)
    decreases extracted
  {
    var t := Laid(jobVars, extracted);
    ApartAligned(jobVars, extracted);
    LaidTree(jobVars, extracted);
    LookupTops(jobVars, extracted, dynamic);
    forall j, k | j != k ensures FootAt(t, j) !! FootAt(dynamic, k) {
      LaidKidFoot(jobVars, extracted, j);
      PartsAt(jobVars, j);
      PartsAt(dynamic, k);
      CrossAligned(extracted, dynamic, j, k);
    }
    forall k | SubAt(t, k) && SubAt(dynamic, k) ensures Aligned(t.kids[k].shape, dynamic.kids[k].shape) {
      assert t.kids[k] == LaidKid(jobVars, extracted, k);
      LookupKid(jobVars, extracted, dynamic, k);
      if SubAt(extracted, k) && SubAt(jobVars, k) {
        LookupAligns(jobVars.kids[k].shape, extracted.kids[k].shape, dynamic.kids[k].shape);
      }
    }
  }

  lemma CrossAligned(s: Shape, d: Shape, j: string, k: string)
    requires Aligned(s, d) && IsTree(d) && j != k
    ensures FootAt(s, j) !! FootAt(d, k)
  {
    if s.node == d.node { KeysApart(d, j, k); }
  }

  lemma LookupTops(jobVars: Shape, extracted: Shape, dynamic: Shape)
    requires IsTree(extracted) && IsTree(dynamic)
    requires Foot(jobVars) !! Foot(extracted) && Foot(jobVars) !! Foot(dynamic) && Aligned(extracted, dynamic)
    ensures jobVars.node !in Foot(dynamic) && dynamic.node !in Foot(Laid(jobVars, extracted))
  {
    LaidFoot(jobVars, extracted);
    PartsAt(jobVars, "");
    PartsAt(dynamic, "");
    PartsAt(extracted, "");
    if dynamic.node in KidsFoot(extracted) {
      var k := KeyOfMap(extracted, dynamic.node);
    }
  }

  /** Under one key, where both extractions hold a map. */
  lemma LookupKid(jobVars: Shape, extracted: Shape, dynamic: Shape, k: string)
    requires IsTree(jobVars) && IsTree(extracted) && IsTree(dynamic)
    requires Foot(jobVars) !! Foot(extracted) && Foot(jobVars) !! Foot(dynamic) && Aligned(extracted, dynamic)
    requires SubAt(dynamic, k)
    ensures SubAt(extracted, k) ==> Aligned(extracted.kids[k].shape, dynamic.kids[k].shape)
    ensures SubAt(jobVars, k) ==> Aligned(jobVars.kids[k].shape, dynamic.kids[k].shape)
    ensures SubAt(jobVars, k) ==> Foot(jobVars.kids[k].shape) !! Foot(dynamic.kids[k].shape)
    ensures SubAt(jobVars, k) && SubAt(extracted, k) ==> Foot(jobVars.kids[k].shape) !! Foot(extracted.kids[k].shape)
  {
    PartsAt(jobVars, k);
    PartsAt(extracted, k);
    PartsAt(dynamic, k);
    if SubAt(jobVars, k) { ApartAligned(jobVars.kids[k].shape, dynamic.kids[k].shape); }
  }

  // ----- when the shared maps make no difference

  /** The value merged last, of the dynamic variables as they are then. */
  ghost function Computed(s: Shape, g: Shape, d: Shape): Vars
  {
    Merge(Merge(ValueOf(s), ValueOf(g)), ValueOf(After(s, g, d)))
  }

  /** The three layers in order, of their values on entry. */
  ghost function Layered(s: Shape, g: Shape, d: Shape): Vars
  {
    Merge(Merge(ValueOf(s), ValueOf(g)), ValueOf(d))
  }

  /** Wherever the same map is in s and d and the governor has one too, its entries and the
      governor's differ only under what a covers. */
  ghost predicate Undisputed(s: Shape, g: Shape, d: Shape, a: Vars)
    decreases d, 2
  {
    if s.node == d.node then Settled(ValueOf(d), ValueOf(g), a) else UndisputedBut(s, g, d, a, {})
  }

  /** The same but for some of the keys. */
  ghost predicate UndisputedBut(s: Shape, g: Shape, d: Shape, a: Vars, drop: set<string>)
    decreases d, 1
  {
    forall k :: k !in drop && AllSub(s, g, d, k) ==> UndisputedAt(s, g, d, a, k)
  }

  ghost predicate UndisputedAt(s: Shape, g: Shape, d: Shape, a: Vars, k: string)
    requires AllSub(s, g, d, k)
    decreases d, 0
  {
    || (k in a && !a[k].Obj?)
    || Undisputed(s.kids[k].shape, g.kids[k].shape, d.kids[k].shape, if k in a then a[k].m else map[])
  }

  lemma {:induction false} UndisputedIff(s: Shape, g: Shape, d: Shape, a: Vars)
    requires Aligned(s, d)
    ensures Merge(Computed(s, g, d), a) == Merge(Layered(s, g, d), a) <==> Undisputed(s, g, d, a)
    decreases d, 2
  {
    hide Merge, Computed, Layered, UndisputedBut, Settled;
    if s.node == d.node {
      assert s == d;
      UndisputedOfOne(d, g, a);
    } else {
      UndisputedButIff(s, g, d, a, {});
      NothingDropped(Computed(s, g, d));
      NothingDropped(Layered(s, g, d));
    }
  }

  lemma NothingDropped(m: Vars)
    ensures m - {} == m
  {
  }

  lemma {:induction false} UndisputedOfOne(d: Shape, g: Shape, a: Vars)
    ensures Merge(Computed(d, g, d), a) == Merge(Layered(d, g, d), a) <==> Undisputed(d, g, d, a)
  {
    hide Merge, Settled, LaidKid, Only;
    LaidValue(d, g);
    MergeSelf(Merge(ValueOf(d), ValueOf(g)));
    SettledIff(ValueOf(d), ValueOf(g), a);
  }

  /** What is computed of the layers, without some keys and with a over it, is what the entry
      values give exactly when nothing is disputed. */
  lemma {:induction false} UndisputedButIff(s: Shape, g: Shape, d: Shape, a: Vars, drop: set<string>)
    requires Aligned(s, d) && s.node != d.node
    ensures Merge(Computed(s, g, d) - drop, a) == Merge(Layered(s, g, d) - drop, a) <==> UndisputedBut(s, g, d, a, drop)
    decreases d, 1
  {
    var left, right := Merge(Computed(s, g, d) - drop, a), Merge(Layered(s, g, d) - drop, a);
    assert Computed(s, g, d).Keys == Layered(s, g, d).Keys by { AfterKeys(s, g, d); }
    assert left.Keys == right.Keys;
    forall k | k in left
      ensures left[k] == right[k] <==> (k !in drop && AllSub(s, g, d, k) ==> UndisputedAt(s, g, d, a, k))
    {
      if k !in drop && AllSub(s, g, d, k) {
        UndisputedKey(s, g, d, a, k);
        MergedUnder(Computed(s, g, d) - drop, Layered(s, g, d) - drop, a, k);
      } else if k !in drop && k in Computed(s, g, d) {
        OtherKey(s, g, d, k);
      }
    }
    if UndisputedBut(s, g, d, a, drop) {
      assert forall k :: k in left ==> left[k] == right[k];
    } else {
      var k :| k !in drop && AllSub(s, g, d, k) && !UndisputedAt(s, g, d, a, k);
      assert k in left && left[k] != right[k];
    }
  }

  lemma AfterKeys(s: Shape, g: Shape, d: Shape)
    requires s.node != d.node
    ensures ValueOf(After(s, g, d)).Keys == ValueOf(d).Keys
    ensures forall k :: k in d.kids && !AllSub(s, g, d, k) ==> ValueOf(After(s, g, d))[k] == ValueOf(d)[k]
  {
  }

  lemma OtherKey(s: Shape, g: Shape, d: Shape, k: string)
    requires s.node != d.node && !AllSub(s, g, d, k) && k in Computed(s, g, d) && k in Layered(s, g, d)
    ensures Computed(s, g, d)[k] == Layered(s, g, d)[k]
  {
    AfterKeys(s, g, d);
  }

  lemma {:induction false} UndisputedKey(s: Shape, g: Shape, d: Shape, a: Vars, k: string)
    requires Aligned(s, d) && s.node != d.node && AllSub(s, g, d, k)
    ensures k in Computed(s, g, d) && k in Layered(s, g, d) && Computed(s, g, d)[k].Obj? && Layered(s, g, d)[k].Obj?
    ensures var b: Vars := if k in a && a[k].Obj? then a[k].m else map[];
            UndisputedAt(s, g, d, a, k) <==>
              (k in a && !a[k].Obj?) || Merge(Computed(s, g, d)[k].m, b) == Merge(Layered(s, g, d)[k].m, b)
    decreases d, 0
  {
    hide Computed, Layered, Undisputed, Aligned;
    var ks, kg, kd := s.kids[k].shape, g.kids[k].shape, d.kids[k].shape;
    AlignedAt(s, d, k);
    UndisputedIff(ks, kg, kd, if k in a && a[k].Obj? then a[k].m else map[]);
    ValuesUnder(s, g, d, k);
  }

  lemma AlignedAt(s: Shape, d: Shape, k: string)
    requires Aligned(s, d) && s.node != d.node && SubAt(s, k) && SubAt(d, k)
    ensures Aligned(s.kids[k].shape, d.kids[k].shape)
  {
  }

  lemma ValuesUnder(s: Shape, g: Shape, d: Shape, k: string)
    requires s.node != d.node && AllSub(s, g, d, k)
    ensures k in Computed(s, g, d) && Computed(s, g, d)[k] == Obj(Computed(s.kids[k].shape, g.kids[k].shape, d.kids[k].shape))
    ensures k in Layered(s, g, d) && Layered(s, g, d)[k] == Obj(Layered(s.kids[k].shape, g.kids[k].shape, d.kids[k].shape))
  {
    hide After;
    var ks, kg, kd := s.kids[k].shape, g.kids[k].shape, d.kids[k].shape;
    AfterValueAt(s, g, d, k);
    ValueAt(s, k);
    ValueAt(g, k);
    ValueAt(d, k);
    assert Merge(ValueOf(s), ValueOf(g))[k] == Obj(Merge(ValueOf(ks), ValueOf(kg)));
  }

  lemma ValueAt(t: Shape, k: string)
    requires SubAt(t, k)
    ensures k in ValueOf(t) && ValueOf(t)[k] == Obj(ValueOf(t.kids[k].shape))
  {
    assert ValueOf(t)[k] == KidValue(t.kids[k]);
  }

  lemma AfterValueAt(s: Shape, g: Shape, d: Shape, k: string)
    requires s.node != d.node && AllSub(s, g, d, k)
    ensures k in ValueOf(After(s, g, d))
    ensures ValueOf(After(s, g, d))[k] == Obj(ValueOf(After(s.kids[k].shape, g.kids[k].shape, d.kids[k].shape)))
  {
    assert After(s, g, d).kids[k] == AfterKid(s, g, d, k);
  }
}
