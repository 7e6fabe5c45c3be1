/** Go maps as heap objects: a value stored under a key is either plain data or a
    reference to another map, and storing a map stores the reference. A Shape is
    what such a structure looks like at one moment, node identities included, so
    that everything but the loops themselves is proved on values. */
module MapHeap {
  import opened Json
  import opened DeepMerge

  /** map[string]interface{}. Lists are plain data: nothing here writes inside one. */
  class GoMap {
    var entries: map<string, Val>

    constructor ()
      ensures entries == map[]
    {
      entries := map[];
    }
  }

  /** Anything but a map. */
  type Data = j: Json | !j.Obj? witness Null

  datatype Val = Plain(j: Data) | Ref(node: GoMap)

  datatype Shape = Shape(node: GoMap, kids: map<string, Kid>)
  datatype Kid = Leaf(j: Data) | Sub(shape: Shape)

  ghost predicate SubAt(t: Shape, k: string)
  {
    k in t.kids && t.kids[k].Sub?
  }

  /** t and everything below it. */
  ghost function Parts(t: Shape): set<Shape>
    decreases t, 1
  {
    {t} + Below(t)
  }

  ghost function Below(t: Shape): set<Shape>
    decreases t, 0
  {
    set k, p | k in t.kids && SubAt(t, k) && p in Parts(t.kids[k].shape) :: p
  }

  /** The maps of t. */
  ghost function Foot(t: Shape): set<GoMap>
  {
    set p | p in Parts(t) :: p.node
  }

  /** The maps of t but the top one. */
  ghost function KidsFoot(t: Shape): set<GoMap>
  {
    set p | p in Below(t) :: p.node
  }

  /** The maps of t under the key k. */
  ghost function FootAt(t: Shape, k: string): set<GoMap>
  {
    if SubAt(t, k) then Foot(t.kids[k].shape) else {}
  }

  lemma PartsAt(t: Shape, k: string)
    ensures SubAt(t, k) ==> Parts(t.kids[k].shape) <= Below(t)
    ensures FootAt(t, k) <= KidsFoot(t) <= Foot(t)
    ensures Foot(t) == {t.node} + KidsFoot(t)
  {
    assert t in Parts(t);
    if SubAt(t, k) {
      assert Parts(t.kids[k].shape) <= Below(t);
    }
  }

  lemma KeyOfPart(t: Shape, p: Shape) returns (k: string)
    requires p in Below(t)
    ensures SubAt(t, k) && p in Parts(t.kids[k].shape) && p.node in FootAt(t, k)
  {
    k :| k in t.kids && SubAt(t, k) && p in Parts(t.kids[k].shape);
  }

  lemma KeyOfMap(t: Shape, n: GoMap) returns (k: string)
    requires n in KidsFoot(t)
    ensures SubAt(t, k) && n in FootAt(t, k)
  {
    var p :| p in Below(t) && p.node == n;
    k := KeyOfPart(t, p);
  }

  /** No map is reachable in two ways. */
  ghost predicate IsTree(t: Shape)
  {
    && (forall k :: SubAt(t, k) ==> t.node !in Foot(t.kids[k].shape) && IsTree(t.kids[k].shape))
    && (forall j, k :: SubAt(t, j) && SubAt(t, k) && j != k ==>
          Foot(t.kids[j].shape) !! Foot(t.kids[k].shape))
  }

  /** What the top map of t holds. */
  ghost function Entries(t: Shape): map<string, Val>
  {
    map k | k in t.kids :: Stored(t.kids[k])
  }

  ghost function Stored(kid: Kid): Val
  {
    match kid
    case Leaf(j) => Plain(j)
    case Sub(c) => Ref(c.node)
  }

  /** The heap looks like t now. */
  ghost predicate Matches(t: Shape)
    reads Foot(t)
  {
    forall p :: p in Parts(t) ==> p.node.entries == Entries(p)
  }

  /** Matching, one level at a time. */
  lemma MatchesByLevel(t: Shape)
    ensures Matches(t) <==>
            t.node.entries == Entries(t) && forall k :: SubAt(t, k) ==> Matches(t.kids[k].shape)
  {
    assert t in Parts(t);
    if Matches(t) {
      forall k | SubAt(t, k) ensures Matches(t.kids[k].shape) {
        PartsAt(t, k);
      }
    }
    if t.node.entries == Entries(t) && forall k :: SubAt(t, k) ==> Matches(t.kids[k].shape) {
      forall p | p in Parts(t) ensures p.node.entries == Entries(p) {
        if p != t {
          var k := KeyOfPart(t, p);
        }
      }
    }
  }

  /** The JSON object t stands for. */
  ghost function ValueOf(t: Shape): Vars
  {
    map k | k in t.kids :: KidValue(t.kids[k])
  }

  ghost function KidValue(kid: Kid): Json
  {
    match kid
    case Leaf(j) => j
    case Sub(c) => Obj(ValueOf(c))
  }

  /** d after s has been laid over it: the maps of s that meet no map stay the same objects. */
  ghost function Laid(d: Shape, s: Shape): Shape
    decreases s, 1
  {
    Shape(d.node, map k | k in d.kids.Keys + s.kids.Keys :: LaidKid(d, s, k))
  }

  ghost function LaidKid(d: Shape, s: Shape, k: string): Kid
    requires k in d.kids.Keys + s.kids.Keys
    decreases s, 0
  {
    if k !in s.kids then d.kids[k]
    else if SubAt(d, k) && SubAt(s, k) then Sub(Laid(d.kids[k].shape, s.kids[k].shape))
    else s.kids[k]
  }

  /** The maps of d that are written: those reached where both sides hold a map. */
  ghost function Touched(d: Shape, s: Shape): set<GoMap>
    decreases s
  {
    {d.node} + TouchedBelow(d, s)
  }

  ghost function TouchedBelow(d: Shape, s: Shape): set<GoMap>
    decreases s, 0
  {
    set k, n | k in d.kids && SubAt(d, k) && SubAt(s, k) && n in Touched(d.kids[k].shape, s.kids[k].shape) :: n
  }

  /** Two structures that have maps in common only where they are the same structure, at the
      same place in both. */
  ghost predicate Aligned(d: Shape, s: Shape)
    decreases s
  {
    if d.node == s.node then d == s
    else
      && d.node !in Foot(s) && s.node !in Foot(d)
      && (forall j, k {:trigger FootAt(d, j), FootAt(s, k)} :: j != k ==> FootAt(d, j) !! FootAt(s, k))
      && (forall k :: SubAt(d, k) && SubAt(s, k) ==> Aligned(d.kids[k].shape, s.kids[k].shape))
  }

  lemma {:induction false} ApartAligned(d: Shape, s: Shape)
    requires Foot(d) !! Foot(s)
    ensures Aligned(d, s)
    decreases s
  {
    PartsAt(d, "");
    PartsAt(s, "");
    forall j, k | j != k ensures FootAt(d, j) !! FootAt(s, k) {
      PartsAt(d, j);
      PartsAt(s, k);
    }
    forall k | SubAt(d, k) && SubAt(s, k) ensures Aligned(d.kids[k].shape, s.kids[k].shape) {
      PartsAt(d, k);
      PartsAt(s, k);
      ApartAligned(d.kids[k].shape, s.kids[k].shape);
    }
  }

  /** Laying a structure over itself, or a part of it, changes nothing. */
  lemma {:induction false} LaidSelf(s: Shape, keys: set<string>)
    ensures Laid(s, Only(s, keys)) == s && Laid(s, s) == s
    decreases s
  {
    forall k | SubAt(s, k) ensures Laid(s.kids[k].shape, s.kids[k].shape) == s.kids[k].shape {
      LaidSelf(s.kids[k].shape, {});
    }
    assert forall k :: k in s.kids ==> LaidKid(s, s, k) == s.kids[k];
    assert Laid(s, s).kids == s.kids;
    assert Laid(s, Only(s, keys)).kids == s.kids;
  }

  /** s with only some of its keys. */
  ghost function Only(s: Shape, keys: set<string>): Shape
  {
    Shape(s.node, map k | k in s.kids && k in keys :: s.kids[k])
  }

  lemma {:induction false} TouchedInFoot(d: Shape, s: Shape)
    ensures Touched(d, s) <= Foot(d)
    decreases s
  {
    forall k, n | SubAt(d, k) && SubAt(s, k) && n in Touched(d.kids[k].shape, s.kids[k].shape)
      ensures n in Foot(d)
    {
      TouchedInFoot(d.kids[k].shape, s.kids[k].shape);
      PartsAt(d, k);
    }
    PartsAt(d, "");
  }

  lemma TouchedAt(d: Shape, s: Shape, k: string)
    ensures d.node in Touched(d, s)
    ensures SubAt(d, k) && SubAt(s, k) ==> Touched(d.kids[k].shape, s.kids[k].shape) <= Touched(d, s)
  {
  }

  /** Laying maps over maps computes the merge of the values. */
  lemma {:induction false} LaidValue(d: Shape, s: Shape)
    ensures ValueOf(Laid(d, s)) == Merge(ValueOf(d), ValueOf(s))
    decreases s
  {
    forall k | SubAt(d, k) && SubAt(s, k)
      ensures KidValue(LaidKid(d, s, k)) == Merge(ValueOf(d), ValueOf(s))[k]
    {
      LaidValue(d.kids[k].shape, s.kids[k].shape);
    }
    assert ValueOf(Laid(d, s)).Keys == Merge(ValueOf(d), ValueOf(s)).Keys;
  }

  lemma {:induction false} LaidFoot(d: Shape, s: Shape)
    ensures Foot(Laid(d, s)) <= Foot(d) + KidsFoot(s)
    ensures KidsFoot(Laid(d, s)) <= KidsFoot(d) + KidsFoot(s)
    decreases s
  {
    var l := Laid(d, s);
    forall n | n in KidsFoot(l) ensures n in KidsFoot(d) + KidsFoot(s) {
      var k := KeyOfMap(l, n);
      LaidKidFoot(d, s, k);
      PartsAt(d, k);
      PartsAt(s, k);
    }
    PartsAt(l, "");
    PartsAt(d, "");
  }

  /** Nothing changes keys: what ends up under k comes from under k. */
  lemma {:induction false} LaidKidFoot(d: Shape, s: Shape, k: string)
    ensures FootAt(Laid(d, s), k) <= FootAt(d, k) + FootAt(s, k)
    decreases s, 0
  {
    if SubAt(d, k) && SubAt(s, k) {
      LaidFoot(d.kids[k].shape, s.kids[k].shape);
      PartsAt(s.kids[k].shape, "");
    }
  }

  lemma {:induction false} LaidTree(d: Shape, s: Shape)
    requires IsTree(d) && IsTree(s) && Aligned(d, s)
    ensures IsTree(Laid(d, s))
    decreases s
  {
    if d.node == s.node {
      LaidSelf(s, {});
    } else {
      var l := Laid(d, s);
      forall k | SubAt(l, k)
        ensures l.node !in Foot(l.kids[k].shape) && IsTree(l.kids[k].shape)
      {
        LaidKidFoot(d, s, k);
        PartsAt(d, k);
        PartsAt(s, k);
        assert d.node !in FootAt(d, k) + FootAt(s, k);
        if SubAt(d, k) && SubAt(s, k) {
          LaidTree(d.kids[k].shape, s.kids[k].shape);
        }
      }
      forall j, k | SubAt(l, j) && SubAt(l, k) && j != k
        ensures Foot(l.kids[j].shape) !! Foot(l.kids[k].shape)
      {
        LaidKidFoot(d, s, j);
        LaidKidFoot(d, s, k);
        KeysApart(d, j, k);
        KeysApart(s, j, k);
        assert FootAt(d, j) !! FootAt(s, k) && FootAt(d, k) !! FootAt(s, j);
      }
    }
  }

  lemma KeysApart(t: Shape, j: string, k: string)
    requires IsTree(t) && j != k
    ensures FootAt(t, j) !! FootAt(t, k)
  {
  }

  lemma OnlyTree(s: Shape, keys: set<string>)
    requires IsTree(s)
    ensures IsTree(Only(s, keys)) && KidsFoot(Only(s, keys)) <= KidsFoot(s)
  {
    var o := Only(s, keys);
    assert forall k :: SubAt(o, k) ==> SubAt(s, k) && o.kids[k] == s.kids[k];
  }

  /** Lay src over dst in place. d and s say what the two look like on entry. dst then has the
      merged value, src its old one, and dst is made of its own maps and maps of src. */
  method DeepMergeMap(dst: GoMap, src: GoMap, ghost d: Shape, ghost s: Shape)
    requires d.node == dst && s.node == src
    requires Matches(d) && Matches(s)
    requires IsTree(d) && IsTree(s) && Aligned(d, s)
    modifies Touched(d, s)
    ensures Matches(Laid(d, s)) && Matches(s)
    ensures ValueOf(Laid(d, s)) == Merge(ValueOf(d), ValueOf(s))
    ensures Foot(Laid(d, s)) <= Foot(d) + KidsFoot(s)
    decreases s, 1
  {
    var todo := src.entries.Keys;
    NoneYet(d, s);
    MatchesByLevel(s);
    while todo != {}
      invariant todo <= s.kids.Keys
      invariant Matches(s)
      invariant Matches(LaidBut(d, s, todo))
      decreases |todo|
    {
      var k :| k in todo;
      MergeKey(dst, src, k, d, s, todo);
      todo := todo - {k};
    }
    AllNow(d, s);
    LaidValue(d, s);
    LaidFoot(d, s);
  }

  /** The state of dst while some keys are still to do. */
  ghost function LaidBut(d: Shape, s: Shape, todo: set<string>): Shape
  {
    Laid(d, Only(s, s.kids.Keys - todo))
  }

  lemma NoneYet(d: Shape, s: Shape)
    ensures LaidBut(d, s, s.kids.Keys) == d
  {
    var o := Only(s, s.kids.Keys - s.kids.Keys);
    assert o.kids.Keys == {};
    assert Laid(d, o).kids == d.kids;
  }

  lemma AllNow(d: Shape, s: Shape)
    ensures LaidBut(d, s, {}) == Laid(d, s)
  {
    assert Only(s, s.kids.Keys) == s;
    assert s.kids.Keys - {} == s.kids.Keys;
  }

  /** One turn of the loop: the value of src under k goes into dst. */
  method MergeKey(dst: GoMap, src: GoMap, k: string, ghost d: Shape, ghost s: Shape, ghost todo: set<string>)
    requires d.node == dst && s.node == src && k in todo && todo <= s.kids.Keys
    requires Matches(LaidBut(d, s, todo)) && Matches(s)
    requires IsTree(d) && IsTree(s) && Aligned(d, s)
    modifies Touched(d, s)
    ensures Matches(LaidBut(d, s, todo - {k}))
    ensures Matches(s)
    decreases s, 0
  {
    hide IsTree, Aligned, KidsMatch, KidsFitIn, FitsIn, KidsFoot;
    ghost var done := s.kids.Keys - todo;
    assert s.kids.Keys - (todo - {k}) == done + {k};
    ghost var partial, kid := Laid(d, Only(s, done)), LaidKid(d, s, k);
    LaidPut(d, s, done, k);
    LaidEntries(d, s, done, k);
    KeyApart(d, s, done, k);
    MatchesByLevel(partial);
    MatchesByLevel(s);
    ghost var others := Foot(s) + KidsFoot(partial) - FootAt(d, k) - {dst};
    ghost var before := Snapshot(others);
    MatchingKids(partial, k);
    MatchingKids(s, k);
    KeyFits(d, s, done, k, others);
    TouchedAt(d, s, k);
    var v := src.entries[k];
    if v.Ref? && k in dst.entries && dst.entries[k].Ref? {
      MergeUnder(dst.entries[k].node, v.node, d.kids[k].shape, s.kids[k].shape, dst, Entries(partial), others, before);
    } else {
      Store(dst, k, v, others, before);
    }
    assert dst.entries == Entries(partial)[k := Stored(kid)];
    KeyFits(d, s, done, k, others);
    KeyDone(d, s, done, k, others);
  }

  lemma OtherKeyApart(d: Shape, s: Shape, j: string, k: string)
    requires IsTree(d) && IsTree(s) && Aligned(d, s) && SubAt(s, j) && j != k
    ensures Foot(s.kids[j].shape) <= Foot(s) - FootAt(d, k) - {d.node}
  {
    PartsAt(s, j);
    KeysApart(s, j, k);
    assert d.node != s.node ==> FootAt(d, k) !! FootAt(s, j);
  }

  /** What the merge under k may write is apart from what it must not change. */
  lemma {:induction false} KeyApart(d: Shape, s: Shape, done: set<string>, k: string)
    requires IsTree(d) && IsTree(s) && Aligned(d, s) && k in s.kids
    ensures var partial := Laid(d, Only(s, done));
            && (forall j :: SubAt(partial, j) && j != k ==>
                  Foot(partial.kids[j].shape) <= KidsFoot(partial) - FootAt(d, k) - {d.node})
            && (forall j :: SubAt(s, j) && j != k ==> Foot(s.kids[j].shape) <= Foot(s) - FootAt(d, k) - {d.node})
    ensures d.node !in FootAt(d, k) && (d.node != s.node ==> s.node in Foot(s) - FootAt(d, k) - {d.node})
    ensures SubAt(s, k) && !SubAt(d, k) ==> Foot(s.kids[k].shape) <= Foot(s) - FootAt(d, k) - {d.node}
    ensures SubAt(d, k) && SubAt(s, k) ==>
      && IsTree(d.kids[k].shape) && IsTree(s.kids[k].shape) && Aligned(d.kids[k].shape, s.kids[k].shape)
      && Touched(d.kids[k].shape, s.kids[k].shape) <= FootAt(d, k)
  {
    PartsAt(d, k);
    PartsAt(s, k);
    if SubAt(d, k) && SubAt(s, k) { TouchedInFoot(d.kids[k].shape, s.kids[k].shape); }
    if d.node == s.node {
      LaidSelf(s, done);
    } else {
      LaidApart(d, s, done, k);
    }
    forall j | SubAt(s, j) && j != k ensures Foot(s.kids[j].shape) <= Foot(s) - FootAt(d, k) - {d.node} {
      OtherKeyApart(d, s, j, k);
    }
    forall j | SubAt(Laid(d, Only(s, done)), j) && j != k
      ensures Foot(Laid(d, Only(s, done)).kids[j].shape) <= KidsFoot(Laid(d, Only(s, done))) - FootAt(d, k) - {d.node}
    {
      PartsAt(Laid(d, Only(s, done)), j);
      if d.node == s.node { KeysApart(s, j, k); }
    }
  }

  lemma KeyFits(d: Shape, s: Shape, done: set<string>, k: string, maps: set<GoMap>)
    requires IsTree(d) && IsTree(s) && Aligned(d, s) && k in s.kids
    requires maps == Foot(s) + KidsFoot(Laid(d, Only(s, done))) - FootAt(d, k) - {d.node}
    ensures KidsMatch(Laid(d, Only(s, done)), k) <==> KidsFitIn(Laid(d, Only(s, done)), k, Snapshot(maps))
    ensures KidsMatch(s, k) <==> KidsFitIn(s, k, Snapshot(maps))
    ensures d.node != s.node ==> s.node in maps && Snapshot(maps)[s.node] == s.node.entries
    ensures SubAt(s, k) && !SubAt(d, k) ==> (Matches(s.kids[k].shape) <==> FitsIn(s.kids[k].shape, Snapshot(maps)))
  {
    hide KidsMatch, KidsFitIn, FitsIn, Matches, Laid, KidsFoot, Aligned, IsTree;
    KeyApart(d, s, done, k);
    KidsFit(Laid(d, Only(s, done)), k, maps);
    KidsFit(s, k, maps);
    if SubAt(s, k) && !SubAt(d, k) { MatchesIsFit(s.kids[k].shape, maps); }
  }

  /** The turn is over: dst holds the new entry, and everything but what was merged under k is as it was. */
  lemma KeyDone(d: Shape, s: Shape, done: set<string>, k: string, maps: set<GoMap>)
    requires IsTree(d) && IsTree(s) && Aligned(d, s) && k in s.kids && k !in done && done <= s.kids.Keys
    requires d.node.entries == Entries(Laid(d, Only(s, done)))[k := Stored(LaidKid(d, s, k))]
    requires KidsMatch(Laid(d, Only(s, done)), k) && KidsMatch(s, k)
    requires d.node != s.node ==> s.node.entries == Entries(s)
    requires SubAt(s, k) ==> Matches(s.kids[k].shape)
    requires LaidKid(d, s, k).Sub? ==> Matches(LaidKid(d, s, k).shape)
    ensures Matches(Laid(d, Only(s, done + {k}))) && Matches(s)
  {
    LaidPut(d, s, done, k);
    PutMatches(Laid(d, Only(s, done)), k, LaidKid(d, s, k));
    if d.node == s.node {
      LaidSelf(s, done);
      LaidSelf(s, done + {k});
    }
    MatchesByLevel(s);
  }

  ghost predicate KidsMatch(t: Shape, k: string)
    reads KidsFoot(t)
  {
    forall j :: SubAt(t, j) && j != k ==> (PartsAt(t, j); Matches(t.kids[j].shape))
  }

  lemma MatchingKids(t: Shape, k: string)
    requires Matches(t)
    ensures KidsMatch(t, k)
  {
    MatchesByLevel(t);
  }

  ghost predicate KidsFitIn(t: Shape, k: string, snapshot: map<GoMap, map<string, Val>>)
  {
    forall j :: SubAt(t, j) && j != k ==> FitsIn(t.kids[j].shape, snapshot)
  }

  /** The other case: the value is stored as it is, a map by reference. */
  method Store(dst: GoMap, k: string, v: Val, ghost others: set<GoMap>, ghost before: map<GoMap, map<string, Val>>)
    requires dst !in others && Snapshot(others) == before
    modifies dst
    ensures dst.entries == old(dst.entries)[k := v]
    ensures Snapshot(others) == before
  {
    dst.entries := dst.entries[k := v];
  }

  /** What a set of maps holds at one moment. */
  ghost function Snapshot(maps: set<GoMap>): map<GoMap, map<string, Val>>
    reads maps
  {
    map n | n in maps :: n.entries
  }

  ghost predicate FitsIn(t: Shape, snapshot: map<GoMap, map<string, Val>>)
  {
    forall p :: p in Parts(t) ==> p.node in snapshot && snapshot[p.node] == Entries(p)
  }

  lemma MatchesIsFit(t: Shape, maps: set<GoMap>)
    requires Foot(t) <= maps
    ensures Matches(t) <==> FitsIn(t, Snapshot(maps))
  {
    forall p | p in Parts(t)
      ensures p.node in Snapshot(maps) && Snapshot(maps)[p.node] == p.node.entries
    {
      assert p.node in Foot(t);
    }
  }

  /** Putting a structure in the place of another that starts at the same map, or a new value under k. */
  lemma PutMatches(t: Shape, k: string, kid: Kid)
    requires t.node.entries == Entries(t)[k := Stored(kid)]
    requires forall j :: SubAt(t, j) && j != k ==> Matches(t.kids[j].shape)
    requires kid.Sub? ==> Matches(kid.shape)
    ensures Matches(Put(t, k, kid))
  {
    var next := Put(t, k, kid);
    assert Entries(next) == Entries(t)[k := Stored(kid)];
    forall j | SubAt(next, j) ensures Matches(next.kids[j].shape) {
      if j != k { assert SubAt(t, j); }
    }
    MatchesByLevel(next);
  }

  ghost function Put(t: Shape, k: string, kid: Kid): Shape
  {
    Shape(t.node, t.kids[k := kid])
  }

  /** DeepMergeMap, with what a caller can still rely on: nothing in others is written, nor is parent. */
  method MergeUnder(dst: GoMap, src: GoMap, ghost d: Shape, ghost s: Shape, ghost parent: GoMap,
                    ghost held: map<string, Val>, ghost others: set<GoMap>, ghost before: map<GoMap, map<string, Val>>)
    requires d.node == dst && s.node == src
    requires Matches(d) && Matches(s)
    requires IsTree(d) && IsTree(s) && Aligned(d, s)
    requires others + {parent} !! Touched(d, s)
    requires parent.entries == held && Snapshot(others) == before
    modifies Touched(d, s)
    ensures Matches(Laid(d, s)) && Matches(s)
    ensures parent.entries == held && Snapshot(others) == before
    decreases s, 2
  {
    DeepMergeMap(dst, src, d, s);
  }

  /** Which keys other than k hold structures that match, said about a snapshot. */
  lemma KidsFit(t: Shape, k: string, maps: set<GoMap>)
    requires forall j :: SubAt(t, j) && j != k ==> Foot(t.kids[j].shape) <= maps
    ensures KidsMatch(t, k) <==> KidsFitIn(t, k, Snapshot(maps))
  {
    forall j | SubAt(t, j) && j != k
      ensures Matches(t.kids[j].shape) <==> FitsIn(t.kids[j].shape, Snapshot(maps))
    {
      MatchesIsFit(t.kids[j].shape, maps);
    }
  }

  /** One more key merged. */
  lemma LaidPut(d: Shape, s: Shape, done: set<string>, k: string)
    requires k in s.kids && k !in done
    ensures Laid(d, Only(s, done + {k})) == Put(Laid(d, Only(s, done)), k, LaidKid(d, s, k))
  {
    var after, put := Laid(d, Only(s, done + {k})).kids, Put(Laid(d, Only(s, done)), k, LaidKid(d, s, k)).kids;
    assert after.Keys == put.Keys;
    forall j | j in after ensures after[j] == put[j] {
      LaidPutAt(d, s, done, k, j);
    }
  }

  lemma LaidPutAt(d: Shape, s: Shape, done: set<string>, k: string, j: string)
    requires k in s.kids && k !in done
    requires j in d.kids.Keys + Only(s, done + {k}).kids.Keys
    ensures j == k ==> LaidKid(d, Only(s, done + {k}), j) == LaidKid(d, s, j)
    ensures j != k ==> j in d.kids.Keys + Only(s, done).kids.Keys
                       && LaidKid(d, Only(s, done + {k}), j) == LaidKid(d, Only(s, done), j)
  {
  }

  /** What dst holds before and after that. */
  lemma LaidEntries(d: Shape, s: Shape, done: set<string>, k: string)
    requires k in s.kids && k !in done
    ensures var partial := Laid(d, Only(s, done));
            && (k in d.kids <==> k in partial.kids)
            && (k in d.kids ==> partial.kids[k] == d.kids[k])
            && Entries(partial)[k := Stored(LaidKid(d, s, k))] ==
                 if SubAt(d, k) && SubAt(s, k) then Entries(partial) else Entries(partial)[k := Entries(s)[k]]
  {
    var now := Entries(Laid(d, Only(s, done)));
    var value := Stored(LaidKid(d, s, k));
    if SubAt(d, k) && SubAt(s, k) {
      assert LaidKid(d, Only(s, done), k) == d.kids[k];
      assert Laid(d.kids[k].shape, s.kids[k].shape).node == d.kids[k].shape.node;
      assert now[k] == Stored(d.kids[k]) == value;
      assert now[k := value] == now;
    } else {
      assert value == Entries(s)[k];
    }
  }

  /** What the merge under k may write is apart from all the rest. */
  lemma {:induction false} LaidApart(d: Shape, s: Shape, done: set<string>, k: string)
    requires IsTree(d) && IsTree(s) && Aligned(d, s) && d.node != s.node
    ensures var partial := Laid(d, Only(s, done));
            && d.node !in Foot(s) + KidsFoot(partial) + FootAt(d, k)
            && (forall j :: SubAt(partial, j) && j != k ==> Foot(partial.kids[j].shape) <= KidsFoot(partial) - FootAt(d, k))
    ensures SubAt(d, k) ==> IsTree(d.kids[k].shape)
    ensures SubAt(s, k) ==> IsTree(s.kids[k].shape)
    ensures FootAt(d, k) <= Foot(d) && FootAt(s, k) <= Foot(s)
  {
    var o := Only(s, done);
    PartsAt(d, k);
    PartsAt(s, k);
    assert d.node !in KidsFoot(Laid(d, o)) by {
      if d.node in KidsFoot(Laid(d, o)) {
        var j := KeyOfMap(Laid(d, o), d.node);
        KidApart(d, s, done, j, k);
      }
    }
    forall j | SubAt(Laid(d, o), j) && j != k
      ensures Foot(Laid(d, o).kids[j].shape) <= KidsFoot(Laid(d, o)) - FootAt(d, k)
    {
      KidApart(d, s, done, j, k);
    }
  }

  lemma {:induction false} KidApart(d: Shape, s: Shape, done: set<string>, j: string, k: string)
    requires IsTree(d) && IsTree(s) && Aligned(d, s) && d.node != s.node
    ensures var f := FootAt(Laid(d, Only(s, done)), j);
            && d.node !in f && f <= KidsFoot(Laid(d, Only(s, done))) && (j != k ==> f !! FootAt(d, k))
  {
    var o := Only(s, done);
    LaidKidFoot(d, o, j);
    assert FootAt(o, j) <= FootAt(s, j);
    PartsAt(Laid(d, o), j);
    PartsAt(s, j);
    PartsAt(d, j);
    PartsAt(d, k);
    if j != k { KeysApart(d, j, k); }
  }

  // ------------------------------------------------------------- nested lookups

  ghost function SubShape(t: Shape, k: string): Option<Shape>
  {
    if SubAt(t, k) then Some(t.kids[k].shape) else None
  }

  /** GetNestedMap on shapes. */
  ghost function NestedShape(t: Option<Shape>, keys: seq<string>): Option<Shape>
    decreases |keys|
  {
    if t.None? || keys == [] then t else NestedShape(SubShape(t.value, keys[0]), keys[1..])
  }

  ghost function OptValue(t: Option<Shape>): Option<Vars>
  {
    if t.None? then None else Some(ValueOf(t.value))
  }

  ghost function OptFoot(t: Option<Shape>): set<GoMap>
  {
    if t.None? then {} else Foot(t.value)
  }

  lemma {:induction false} NestedShapeValue(t: Option<Shape>, keys: seq<string>)
    ensures OptValue(NestedShape(t, keys)) == Nested(OptValue(t), keys)
    decreases |keys|
  {
    if t.Some? && keys != [] {
      assert OptValue(SubShape(t.value, keys[0])) == SubMap(ValueOf(t.value), keys[0]);
      NestedShapeValue(SubShape(t.value, keys[0]), keys[1..]);
    }
  }

  lemma {:induction false} NestedShapeInside(t: Shape, keys: seq<string>)
    requires IsTree(t)
    ensures var r := NestedShape(Some(t), keys);
            r.Some? ==> Parts(r.value) <= Parts(t) && Foot(r.value) <= Foot(t) && IsTree(r.value)
    decreases |keys|
  {
    if keys != [] && SubAt(t, keys[0]) {
      PartsAt(t, keys[0]);
      NestedShapeInside(t.kids[keys[0]].shape, keys[1..]);
    }
  }

  /** A possibly nil map and what it looks like. */
  ghost predicate IsMap(m: GoMap?, t: Option<Shape>)
    reads OptFoot(t)
  {
    match t
    case None => m == null
    case Some(shape) => m == shape.node && Matches(shape)
  }

  /** Follow keys through nested maps; nil when one is missing or holds something else. */
  method GetNestedMap(m: GoMap?, keys: seq<string>, ghost t: Option<Shape>) returns (r: GoMap?, ghost rt: Option<Shape>)
    requires IsMap(m, t)
    ensures IsMap(r, rt) && rt == NestedShape(t, keys)
    ensures r == null <==> NestedShape(t, keys).None?
    ensures r != null ==> NestedShape(t, keys).Some? && r == NestedShape(t, keys).value.node
  {
    r, rt := m, t;
    var i := 0;
    while i < |keys|
      invariant 0 <= i <= |keys|
      invariant IsMap(r, rt) && NestedShape(rt, keys[i..]) == NestedShape(t, keys)
    {
      if r == null {
        return null, None;
      }
      MatchesByLevel(rt.value);
      assert keys[i..][0] == keys[i] && keys[i..][1..] == keys[i + 1..];
      if keys[i] in r.entries && r.entries[keys[i]].Ref? {
        r := r.entries[keys[i]].node;
      } else {
        r := null;
      }
      rt := SubShape(rt.value, keys[i]);
      i := i + 1;
    }
  }
}
