/** The canonical text determines the value, and the value determines the text. */
module CanonicalJsonProofs {
  import opened Base
  import opened CanonicalJson
  import opened JsonReader

  // ---------------------------------------------------------------- text

  lemma DropSame(p: string, r: string, s: string)
    requires p + r == p + s
    ensures r == s
  {
    assert r == (p + r)[|p|..] == (p + s)[|p|..] == s;
  }

  lemma BodyPrefixFree(a: string, b: string, r: string, s: string)
    requires Body(a) + r == Body(b) + s
    ensures a == b && r == s
  {
    BodyReads(a, r);
    BodyReads(b, s);
  }

  lemma NumberPrefixFree(m: int, n: int, r: string, s: string)
    requires Stops(r) && Stops(s) && Number(m) + r == Number(n) + s
    ensures m == n && r == s
  {
    NumberReads(m, r);
    NumberReads(n, s);
  }

  /** No rendered value is a proper prefix of another, whatever may follow. */
  lemma RenderPrefixFree(a: Json, b: Json, r: string, s: string)
    requires Stops(r) && Stops(s) && Render(a) + r == Render(b) + s
    ensures a == b && r == s
  {
    ValueReads(a, r);
    ValueReads(b, s);
  }

  // ---------------------------------------------------------------- sorting fields

  /** Where `s` and `t` part, `s` comes first: it ends there, or has the smaller character. */
  ghost predicate PartsBefore(s: string, t: string, k: nat)
  {
    && k <= |s| && k < |t| && s[..k] == t[..k]
    && (k == |s| || s[k] < t[k])
  }

  ghost predicate Precedes(s: string, t: string)
  {
    exists k: nat :: PartsBefore(s, t, k)
  }

  /** The order is that of the first difference. */
  lemma {:induction false} BeforeIsLexicographic(s: string, t: string)
    ensures Before(s, t) <==> Precedes(s, t)
  {
    forall k: nat | s != [] && t != [] && PartsBefore(s, t, k) ensures s[0] <= t[0] {
      assert k > 0 ==> s[..k][0] == s[0] && t[..k][0] == t[0];
    }
    if t == [] {
    } else if s == [] || s[0] < t[0] {
      assert PartsBefore(s, t, 0);
    } else if s[0] == t[0] {
      BeforeIsLexicographic(s[1..], t[1..]);
      if Before(s, t) {
        var k: nat :| PartsBefore(s[1..], t[1..], k);
        PartsOneLater(s, t, k);
      }
      if k: nat :| PartsBefore(s, t, k) {
        assert k > 0;
        PartsOneEarlier(s, t, k);
      }
    }
  }

  lemma PartsOneLater(s: string, t: string, k: nat)
    requires s != [] && t != [] && s[0] == t[0] && PartsBefore(s[1..], t[1..], k)
    ensures PartsBefore(s, t, k + 1)
  {
    assert s[..k + 1] == [s[0]] + s[1..][..k] && t[..k + 1] == [t[0]] + t[1..][..k];
  }

  lemma PartsOneEarlier(s: string, t: string, k: nat)
    requires s != [] && t != [] && k > 0 && PartsBefore(s, t, k)
    ensures PartsBefore(s[1..], t[1..], k - 1)
  {
    assert s[1..][..k - 1] == s[..k][1..] && t[1..][..k - 1] == t[..k][1..];
  }

  /** Strictly ascending keys. */
  ghost predicate Ascending(fs: seq<Field>)
  {
    forall i, j :: 0 <= i < j < |fs| ==> Before(fs[i].key, fs[j].key)
  }

  /** The keys stand in code-point order. */
  ghost predicate InOrder(fs: seq<Field>)
  {
    forall i, j :: 0 <= i < j < |fs| ==> Precedes(fs[i].key, fs[j].key)
  }

  lemma AscendingInOrder(fs: seq<Field>)
    requires Ascending(fs)
    ensures InOrder(fs)
  {
    forall i, j | 0 <= i < j < |fs| ensures Precedes(fs[i].key, fs[j].key) {
      BeforeIsLexicographic(fs[i].key, fs[j].key);
    }
  }

  lemma {:induction false} BeforeTotal(s: string, t: string)
    ensures Before(s, t) || s == t || Before(t, s)
    ensures !(Before(s, t) && Before(t, s))
    ensures Before(s, t) ==> s != t
  {
    if s != [] && t != [] {
      BeforeTotal(s[1..], t[1..]);
      assert s == [s[0]] + s[1..] && t == [t[0]] + t[1..];
    }
  }

  lemma {:induction false} BeforeTransitive(s: string, t: string, u: string)
    requires Before(s, t) && Before(t, u)
    ensures Before(s, u)
  {
    if s != [] && s[0] == t[0] == u[0] {
      BeforeTransitive(s[1..], t[1..], u[1..]);
    }
  }

  lemma {:induction false} InsertAscending(f: Field, fs: seq<Field>)
    requires Ascending(fs) && forall i :: 0 <= i < |fs| ==> fs[i].key != f.key
    ensures Ascending(Insert(f, fs))
    ensures forall g :: g in Insert(f, fs) <==> g == f || g in fs
  {
    if fs == [] {
    } else if Before(fs[0].key, f.key) {
      InsertAscending(f, fs[1..]);
      assert fs == [fs[0]] + fs[1..];
      forall i | 0 <= i < |Insert(f, fs[1..])| ensures Before(fs[0].key, Insert(f, fs[1..])[i].key) {
        assert Insert(f, fs[1..])[i] in Insert(f, fs[1..]);
      }
    } else {
      BeforeTotal(f.key, fs[0].key);
      forall i | 0 < i < |fs| ensures Before(f.key, fs[i].key) {
        BeforeTransitive(f.key, fs[0].key, fs[i].key);
      }
    }
  }

  lemma {:induction false} SortAscending(fs: seq<Field>)
    requires DistinctFields(fs)
    ensures Ascending(Sort(fs)) && InOrder(Sort(fs)) && forall g :: g in Sort(fs) <==> g in fs
  {
    hide InOrder;
    if fs != [] {
      SortAscending(fs[1..]);
      assert fs == [fs[0]] + fs[1..];
      forall i | 0 <= i < |Sort(fs[1..])| ensures Sort(fs[1..])[i].key != fs[0].key {
        assert Sort(fs[1..])[i] in fs[1..];
      }
      InsertAscending(fs[0], Sort(fs[1..]));
    }
    AscendingInOrder(Sort(fs));
  }

  lemma AscendingTail(xs: seq<Field>, f: Field)
    requires Ascending(xs) && xs != []
    ensures f in xs[1..] <==> f in xs && f != xs[0]
  {
    if f in xs[1..] {
      var i :| 0 <= i < |xs[1..]| && xs[1..][i] == f;
      assert xs[i + 1] == f;
      BeforeTotal(xs[0].key, f.key);
    }
  }

  lemma {:induction false} AscendingUnique(xs: seq<Field>, ys: seq<Field>)
    requires Ascending(xs) && Ascending(ys) && forall f :: f in xs <==> f in ys
    ensures xs == ys
  {
    if ys != [] { assert ys[0] in xs; }
    if xs != [] {
      assert xs[0] in ys;
      BeforeTotal(xs[0].key, ys[0].key);
      assert xs[0] == ys[0];
      forall f ensures f in xs[1..] <==> f in ys[1..] {
        AscendingTail(xs, f);
        AscendingTail(ys, f);
      }
      AscendingUnique(xs[1..], ys[1..]);
    }
  }

  // ---------------------------------------------------------------- main results

  lemma {:induction false} SameIffCanonEqual(a: Json, b: Json)
    requires WellFormed(a) && WellFormed(b)
    ensures Same(a, b) <==> Canon(a) == Canon(b)
    decreases a
  {
    match a
    case Arr(xs) =>
      if b.Arr? && |xs| == |b.items| {
        var cx, cy := Canon(a).items, Canon(b).items;
        forall i | 0 <= i < |xs| ensures Same(xs[i], b.items[i]) <==> cx[i] == cy[i] {
          SameIffCanonEqual(xs[i], b.items[i]);
        }
        if Same(a, b) { assert cx == cy; }
      } else if b.Arr? {
        assert |Canon(a).items| != |Canon(b).items|;
      }
    case Obj(fs) =>
      if b.Obj? { SameIffSortedEqual(fs, b.fields); }
    case _ =>
  }

  lemma {:induction false} FoundInIffMember(f: Field, gs: seq<Field>)
    requires WellFormed(f.value) && forall j :: 0 <= j < |gs| ==> WellFormed(gs[j].value)
    ensures FoundIn(f, gs) <==> Field(f.key, Canon(f.value)) in CanonFields(gs)
    decreases f, 1
  {
    forall j | 0 <= j < |gs| ensures SameField(f, gs[j]) <==> Field(f.key, Canon(f.value)) == CanonFields(gs)[j] {
      SameIffCanonEqual(f.value, gs[j].value);
    }
  }

  lemma {:induction false} FoundByIffMember(fs: seq<Field>, g: Field)
    requires WellFormed(g.value) && forall i :: 0 <= i < |fs| ==> WellFormed(fs[i].value)
    ensures FoundBy(fs, g) <==> Field(g.key, Canon(g.value)) in CanonFields(fs)
    decreases fs, 1
  {
    forall i | 0 <= i < |fs| ensures SameField(fs[i], g) <==> CanonFields(fs)[i] == Field(g.key, Canon(g.value)) {
      SameIffCanonEqual(fs[i].value, g.value);
    }
  }

  lemma {:induction false} SameFieldsIffMutualMembers(fs: seq<Field>, gs: seq<Field>, cf: seq<Field>, cg: seq<Field>)
    requires WellFormed(Obj(fs)) && WellFormed(Obj(gs))
    requires cf == CanonFields(fs) && cg == CanonFields(gs)
    ensures SameFields(fs, gs) <==> MutualMembers(cf, cg)
    decreases fs, 2
  {
    forall i | 0 <= i < |fs| ensures FoundIn(fs[i], gs) <==> cf[i] in cg {
      FoundInIffMember(fs[i], gs);
    }
    forall j | 0 <= j < |gs| ensures FoundBy(fs, gs[j]) <==> cg[j] in cf {
      FoundByIffMember(fs, gs[j]);
    }
  }

  lemma {:induction false} SameIffSortedEqual(fs: seq<Field>, gs: seq<Field>)
    requires WellFormed(Obj(fs)) && WellFormed(Obj(gs))
    ensures SameFields(fs, gs) <==> Sort(CanonFields(fs)) == Sort(CanonFields(gs))
    decreases fs, 3
  {
    SameFieldsIffMutualMembers(fs, gs, CanonFields(fs), CanonFields(gs));
    SortedEqualIffMutualMembers(CanonFields(fs), CanonFields(gs));
  }

  ghost predicate MutualMembers(xs: seq<Field>, ys: seq<Field>)
  {
    && (forall i :: 0 <= i < |xs| ==> xs[i] in ys)
    && (forall j :: 0 <= j < |ys| ==> ys[j] in xs)
  }

  lemma SortedEqualIffMutualMembers(xs: seq<Field>, ys: seq<Field>)
    requires DistinctFields(xs) && DistinctFields(ys)
    ensures Sort(xs) == Sort(ys) <==> MutualMembers(xs, ys)
  {
    SortAscending(xs);
    SortAscending(ys);
    if MutualMembers(xs, ys) {
      AscendingUnique(Sort(xs), Sort(ys));
    }
    if Sort(xs) == Sort(ys) {
      forall i | 0 <= i < |xs| ensures xs[i] in ys { assert xs[i] in Sort(xs); }
      forall j | 0 <= j < |ys| ensures ys[j] in xs { assert ys[j] in Sort(ys); }
    }
  }

  /** Reading the canonical text by the grammar gives the canonical form of the value, to the last character. */
  lemma DumpsReads(v: Json)
    ensures ReadValue(Dumps(v)) == Some((Canon(v), []))
    ensures Plain(Dumps(v))
  {
    hide ReadValue, Render, Canon, Plain;
    ValueReads(Canon(v), []);
    RenderIsPlain(Canon(v));
    assert Dumps(v) + [] == Dumps(v);
  }

  /** The canonical encoding is unambiguous, and blind to nothing but field order. */
  lemma DumpsUnambiguous(a: Json, b: Json)
    requires WellFormed(a) && WellFormed(b)
    ensures Dumps(a) == Dumps(b) <==> Same(a, b)
  {
    SameIffCanonEqual(a, b);
    if Dumps(a) == Dumps(b) {
      RenderPrefixFree(Canon(a), Canon(b), [], []);
    }
  }
}
