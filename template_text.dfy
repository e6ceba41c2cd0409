/**
 * The text of a prompt template seen as prose interleaved with "{name}"
 * placeholders. When the prose holds no '{' and the names hold no brace, the
 * placeholders a rendered text contains are exactly its slots.
 */
module TemplateText {
  import opened Common
  import opened Utils

  datatype Piece = Prose(text: string) | Slot(name: string)

  /** The text of one piece: prose as it is, a slot as its placeholder. */
  function PieceText(p: Piece): string
  {
    match p
    case Prose(t) => t
    case Slot(n) => Placeholder(n)
  }

  /** The template text the pieces spell, left to right. */
  function Render(pieces: seq<Piece>): string
  {
    if pieces == [] then [] else PieceText(pieces[0]) + Render(pieces[1..])
  }

  /** The names of the slots, in order. */
  function SlotNames(pieces: seq<Piece>): seq<string>
  {
    if pieces == [] then []
    else (if pieces[0].Slot? then [pieces[0].name] else []) + SlotNames(pieces[1..])
  }

  /** A name that can stand between braces without being mistaken for text around it. */
  predicate PlainName(n: string)
  {
    '{' !in n && '}' !in n
  }

  /** A piece that cannot start or break a placeholder: prose without '{', a slot with a plain name. */
  predicate PieceOk(p: Piece)
  {
    match p
    case Prose(t) => '{' !in t
    case Slot(n) => PlainName(n)
  }

  /** Every piece is well formed. */
  predicate WellFormed(pieces: seq<Piece>)
  {
    pieces == [] || (PieceOk(pieces[0]) && WellFormed(pieces[1..]))
  }

  lemma RenderAppend(a: seq<Piece>, b: seq<Piece>)
    ensures Render(a + b) == Render(a) + Render(b)
    ensures SlotNames(a + b) == SlotNames(a) + SlotNames(b)
  {
    RenderOfAppend(a, b);
    SlotNamesOfAppend(a, b);
  }

  lemma {:induction false} RenderOfAppend(a: seq<Piece>, b: seq<Piece>)
    ensures Render(a + b) == Render(a) + Render(b)
  {
    if a == [] {
      assert a + b == b;
    } else {
      var c := a + b;
      assert c[0] == a[0] && c[1..] == a[1..] + b;
      RenderOfAppend(a[1..], b);
      var x, y, z := PieceText(a[0]), Render(a[1..]), Render(b);
      assert Render(c) == x + (y + z);
      StringAssoc(x, y, z);
    }
  }

  lemma {:induction false} SlotNamesOfAppend(a: seq<Piece>, b: seq<Piece>)
    ensures SlotNames(a + b) == SlotNames(a) + SlotNames(b)
  {
    if a == [] {
      assert a + b == b;
    } else {
      var c := a + b;
      assert c[0] == a[0] && c[1..] == a[1..] + b;
      SlotNamesOfAppend(a[1..], b);
      var x: seq<string> := if a[0].Slot? then [a[0].name] else [];
      var y, z := SlotNames(a[1..]), SlotNames(b);
      assert SlotNames(c) == x + (y + z);
      assert x + (y + z) == (x + y) + z;
    }
  }

  lemma StringAssoc(x: string, y: string, z: string)
    ensures x + (y + z) == (x + y) + z
  {
  }

  /** How a template that starts with piece `p` renders, lists its slots and is well formed. */
  lemma Cons(p: Piece, rest: seq<Piece>)
    ensures Render([p] + rest) == PieceText(p) + Render(rest)
    ensures SlotNames([p] + rest) == (if p.Slot? then [p.name] else []) + SlotNames(rest)
    ensures WellFormed([p] + rest) <==> PieceOk(p) && WellFormed(rest)
  {
    assert ([p] + rest)[0] == p && ([p] + rest)[1..] == rest;
  }

  lemma {:induction false} WellFormedAppend(a: seq<Piece>, b: seq<Piece>)
    requires WellFormed(a) && WellFormed(b)
    ensures WellFormed(a + b)
  {
    if a != [] {
      assert (a + b)[1..] == a[1..] + b;
      WellFormedAppend(a[1..], b);
    } else {
      assert a + b == b;
    }
  }

  /** The first position at which two different plain names' placeholders differ. */
  lemma PlaceholdersDiffer(n: string, v: string) returns (k: nat)
    requires n != v && PlainName(n) && PlainName(v)
    ensures 0 < k < |Placeholder(n)| && k < |Placeholder(v)|
    ensures Placeholder(n)[k] != Placeholder(v)[k]
  {
    var q, pat := Placeholder(n), Placeholder(v);
    k := 0;
    while k < |n| && k < |v| && n[k] == v[k]
      invariant k <= |n| && k <= |v|
      invariant n[..k] == v[..k]
    {
      k := k + 1;
    }
    assert q[k + 1] == if k < |n| then n[k] else '}';
    assert pat[k + 1] == if k < |v| then v[k] else '}';
    if k == |n| && k == |v| {
      assert n == n[..k] == v[..k] == v;
    }
    k := k + 1;
  }

  /** Every slot of a template shows up as a placeholder in its text. */
  lemma RenderShows(pieces: seq<Piece>, v: string)
    requires v in SlotNames(pieces)
    ensures Contains(Render(pieces), Placeholder(v))
  {
    var i := RenderShowsAt(pieces, v);
    OccurrenceShows(Render(pieces), Placeholder(v), i);
  }

  /** Where the first slot named `v` begins, its placeholder occurs. */
  lemma {:induction false} RenderShowsAt(pieces: seq<Piece>, v: string) returns (i: nat)
    requires v in SlotNames(pieces)
    ensures OccursAt(Render(pieces), Placeholder(v), i)
  {
    var pat := Placeholder(v);
    var p, rest := pieces[0], pieces[1..];
    var head, tail := PieceText(p), Render(rest);
    assert Render(pieces) == head + tail;
    if p == Slot(v) {
      i := 0;
      OccursAtFront(head, tail);
    } else {
      assert SlotNames(pieces) == (if p.Slot? then [p.name] else []) + SlotNames(rest);
      assert v in SlotNames(rest);
      var j := RenderShowsAt(rest, v);
      i := |head| + j;
      OccursAfter(head, tail, pat, j);
    }
  }

  /** A text occurs at the front of itself followed by anything. */
  lemma OccursAtFront(head: string, tail: string)
    ensures OccursAt(head + tail, head, 0)
  {
    assert (head + tail)[..|head|] == head;
  }

  /** An occurrence in the second text is an occurrence in the two, shifted by the first's length. */
  lemma OccursAfter(head: string, tail: string, pat: string, j: int)
    requires OccursAt(tail, pat, j)
    ensures OccursAt(head + tail, pat, |head| + j)
  {
    assert (head + tail)[|head| + j..|head| + j + |pat|] == tail[j..j + |pat|];
  }

  /** A well-formed template holds no placeholder for a name that is not one of its slots. */
  lemma {:induction false} RenderLacks(pieces: seq<Piece>, v: string)
    requires WellFormed(pieces) && PlainName(v) && v !in SlotNames(pieces)
    ensures !Contains(Render(pieces), Placeholder(v))
  {
    var pat := Placeholder(v);
    if pieces == [] {
      AbsentFirstChar([], pat);
    } else {
      var p, rest := pieces[0], pieces[1..];
      RenderLacks(rest, v);
      if p.Prose? {
        AbsentAfterPlainText(p.text, Render(rest), pat);
      } else {
        var k := PlaceholdersDiffer(p.name, v);
        assert Placeholder(p.name)[1..] == p.name + "}";
        AbsentAfterOtherToken(Placeholder(p.name), Render(rest), pat, k);
      }
    }
  }

  /**
   * A slot whose name no other slot repeats shows up exactly once, at the
   * position where its piece begins.
   */
  lemma RenderOnce(before: seq<Piece>, v: string, after: seq<Piece>)
    requires WellFormed(before) && WellFormed(after) && PlainName(v)
    requires v !in SlotNames(before) && v !in SlotNames(after)
    ensures OccursOnlyAt(Render(before + [Slot(v)] + after), Placeholder(v), |Render(before)|)
  {
    var pat := Placeholder(v);
    RenderLacks(before, v);
    RenderLacks(after, v);
    RenderOfAppend(before, [Slot(v)]);
    RenderOfAppend(before + [Slot(v)], after);
    assert Render([Slot(v)]) == pat + Render([]);
    assert pat[1..] == v + "}";
    assert pat[0] !in pat[1..];
    OnceBetween(Render(before), pat, Render(after));
  }

  // ---------------------------------------------------------------------
  // Templates written as prose around named slots

  /** Prose pieces with one named slot between each two consecutive ones. */
  function Interleave(prose: seq<string>, names: seq<string>): (pieces: seq<Piece>)
    requires |prose| == |names| + 1
    decreases names
  {
    if names == [] then [Prose(prose[0])]
    else [Prose(prose[0]), Slot(names[0])] + Interleave(prose[1..], names[1..])
  }

  /** No prose piece holds '{' and every name is plain. */
  predicate PlainParts(prose: seq<string>, names: seq<string>)
  {
    (forall t | t in prose :: '{' !in t) && (forall n | n in names :: PlainName(n))
  }

  /** An interleaved template's slots are the given names, and plain parts make it well formed. */
  lemma {:induction false} InterleaveSlots(prose: seq<string>, names: seq<string>)
    requires |prose| == |names| + 1
    ensures SlotNames(Interleave(prose, names)) == names
    ensures PlainParts(prose, names) ==> WellFormed(Interleave(prose, names))
    decreases names
  {
    var pieces := Interleave(prose, names);
    if names == [] {
      Cons(Prose(prose[0]), []);
      assert pieces == [Prose(prose[0])] + [];
    } else {
      var rest := Interleave(prose[1..], names[1..]);
      InterleaveSlots(prose[1..], names[1..]);
      Cons(Slot(names[0]), rest);
      Cons(Prose(prose[0]), [Slot(names[0])] + rest);
      assert pieces == [Prose(prose[0])] + ([Slot(names[0])] + rest);
      assert names == [names[0]] + names[1..];
      if PlainParts(prose, names) {
        assert prose[0] in prose && names[0] in names;
        assert PlainParts(prose[1..], names[1..]) by {
          forall t | t in prose[1..] ensures '{' !in t { assert t in prose; }
          forall n | n in names[1..] ensures PlainName(n) { assert n in names; }
        }
      }
    }
  }

  /** The pieces before the slot named names[k], that slot, and the pieces after it. */
  lemma {:induction false} InterleaveSplit(prose: seq<string>, names: seq<string>, k: nat)
    requires |prose| == |names| + 1 && k < |names|
    ensures Interleave(prose, names)
         == Interleave(prose[..k + 1], names[..k]) + [Slot(names[k])] + Interleave(prose[k + 1..], names[k + 1..])
    decreases k
  {
    if k == 0 {
      assert prose[..1] == [prose[0]] && names[..0] == [];
      assert prose[1..] == prose[k + 1..] && names[1..] == names[k + 1..];
    } else {
      InterleaveSplit(prose[1..], names[1..], k - 1);
      assert prose[1..][..k] == prose[1..k + 1] && names[1..][..k - 1] == names[1..k];
      assert prose[1..][k..] == prose[k + 1..] && names[1..][k..] == names[k + 1..];
      assert prose[..k + 1][1..] == prose[1..k + 1] && names[..k][1..] == names[1..k];
      assert prose[..k + 1][0] == prose[0] && names[..k][0] == names[0];
    }
  }

  /**
   * In a template with plain parts, a slot whose name no other slot repeats
   * shows up as a placeholder exactly once, where its piece begins.
   */
  lemma InterleaveOnce(prose: seq<string>, names: seq<string>, k: nat)
    requires |prose| == |names| + 1 && k < |names| && PlainParts(prose, names)
    requires names[k] !in names[..k] && names[k] !in names[k + 1..]
    ensures OccursOnlyAt(Render(Interleave(prose, names)), Placeholder(names[k]),
                         |Render(Interleave(prose[..k + 1], names[..k]))|)
  {
    var before := Interleave(prose[..k + 1], names[..k]);
    var after := Interleave(prose[k + 1..], names[k + 1..]);
    InterleaveSplit(prose, names, k);
    assert PlainParts(prose[..k + 1], names[..k]) by {
      forall t | t in prose[..k + 1] ensures '{' !in t { assert t in prose; }
      forall n | n in names[..k] ensures PlainName(n) { assert n in names; }
    }
    assert PlainParts(prose[k + 1..], names[k + 1..]) by {
      forall t | t in prose[k + 1..] ensures '{' !in t { assert t in prose; }
      forall n | n in names[k + 1..] ensures PlainName(n) { assert n in names; }
    }
    InterleaveSlots(prose[..k + 1], names[..k]);
    InterleaveSlots(prose[k + 1..], names[k + 1..]);
    assert names[k] in names;
    RenderOnce(before, names[k], after);
  }

  /** In a template with plain parts, `{v}` occurs exactly when `v` is one of the names. */
  lemma InterleaveHolds(prose: seq<string>, names: seq<string>, v: string)
    requires |prose| == |names| + 1 && PlainParts(prose, names) && PlainName(v)
    ensures Contains(Render(Interleave(prose, names)), Placeholder(v)) <==> v in names
  {
    InterleaveSlots(prose, names);
    if v in names {
      RenderShows(Interleave(prose, names), v);
    } else {
      RenderLacks(Interleave(prose, names), v);
    }
  }

  /** Prose put in front of an interleaved template joins its first prose piece. */
  lemma RenderProseThen(head: string, prose: seq<string>, names: seq<string>)
    requires |prose| == |names| + 1
    ensures head + Render(Interleave(prose, names)) == Render(Interleave([head + prose[0]] + prose[1..], names))
  {
    var all := [head + prose[0]] + prose[1..];
    assert all[0] == head + prose[0] && all[1..] == prose[1..];
    if names == [] {
      RenderNoSlots(prose);
      RenderNoSlots(all);
    } else {
      RenderFirstSlot(prose, names);
      RenderFirstSlot(all, names);
    }
  }

  /**
   * A template whose text is prose `head` before one more template: it holds
   * "{v}" exactly when the second template does, given a plain `head`.
   */
  lemma ProseThen(head: string, prose: seq<string>, names: seq<string>, v: string)
    requires |prose| == |names| + 1 && '{' !in head && PlainParts(prose, names) && PlainName(v)
    ensures Contains(head + Render(Interleave(prose, names)), Placeholder(v)) <==> v in names
  {
    var all := [head + prose[0]] + prose[1..];
    assert PlainParts(all, names) by {
      assert prose[0] in prose;
      forall t | t in all ensures '{' !in t {
        if t != all[0] { assert t in prose[1..]; }
      }
    }
    InterleaveHolds(all, names, v);
    RenderProseThen(head, prose, names);
  }

  /** A template without slots is its one prose piece. */
  lemma RenderNoSlots(prose: seq<string>)
    requires |prose| == 1
    ensures Render(Interleave(prose, [])) == prose[0]
  {
    Cons(Prose(prose[0]), []);
    assert Interleave(prose, []) == [Prose(prose[0])] + [];
  }

  /** A template with a slot renders its first prose piece, that slot's placeholder, then the rest. */
  lemma RenderFirstSlot(prose: seq<string>, names: seq<string>)
    requires |prose| == |names| + 1 && names != []
    ensures Render(Interleave(prose, names))
         == prose[0] + Placeholder(names[0]) + Render(Interleave(prose[1..], names[1..]))
  {
    var inner := Interleave(prose[1..], names[1..]);
    assert Interleave(prose, names) == [Prose(prose[0])] + ([Slot(names[0])] + inner);
    Cons(Prose(prose[0]), [Slot(names[0])] + inner);
    Cons(Slot(names[0]), inner);
  }

  /** The prose of two templates written one after the other, the last piece of the first joined to the first of the second. */
  function JoinedProse(p1: seq<string>, p2: seq<string>): seq<string>
    requires p1 != [] && p2 != []
  {
    p1[..|p1| - 1] + [p1[|p1| - 1] + p2[0]] + p2[1..]
  }

  lemma JoinedProseTail(p1: seq<string>, p2: seq<string>)
    requires |p1| >= 2 && p2 != []
    ensures JoinedProse(p1, p2)[0] == p1[0] && JoinedProse(p1, p2)[1..] == JoinedProse(p1[1..], p2)
  {
    assert p1[..|p1| - 1] == [p1[0]] + p1[1..][..|p1[1..]| - 1];
  }

  /** Two templates written one after the other are one template with the slots of both. */
  lemma {:induction false} RenderConcat(p1: seq<string>, n1: seq<string>, p2: seq<string>, n2: seq<string>)
    requires |p1| == |n1| + 1 && |p2| == |n2| + 1
    ensures |JoinedProse(p1, p2)| == |n1 + n2| + 1
    ensures Render(Interleave(p1, n1)) + Render(Interleave(p2, n2)) == Render(Interleave(JoinedProse(p1, p2), n1 + n2))
    decreases n1
  {
    var joined := JoinedProse(p1, p2);
    if n1 == [] {
      assert joined == [p1[0] + p2[0]] + p2[1..];
      RenderNoSlots(p1);
      RenderProseThen(p1[0], p2, n2);
      assert n1 + n2 == n2;
    } else {
      var q1, m1, n := p1[1..], n1[1..], n1 + n2;
      var head := p1[0] + Placeholder(n1[0]);
      var r1, r2 := Render(Interleave(q1, m1)), Render(Interleave(p2, n2));
      assert |JoinedProse(q1, p2)| == |m1 + n2| + 1;
      var rj := Render(Interleave(JoinedProse(q1, p2), m1 + n2));
      assert r1 + r2 == rj by {
        RenderConcat(q1, m1, p2, n2);
      }
      assert Render(Interleave(p1, n1)) == head + r1 by {
        RenderFirstSlot(p1, n1);
      }
      assert Render(Interleave(joined, n)) == head + rj by {
        JoinedProseTail(p1, p2);
        assert n[0] == n1[0] && n[1..] == m1 + n2;
        RenderFirstSlot(joined, n);
      }
      Regroup(head, r1, r2, rj);
    }
  }

  /** Two templates with plain parts, written one after the other, hold "{v}" exactly when one of them has slot `v`. */
  lemma ConcatHolds(p1: seq<string>, n1: seq<string>, p2: seq<string>, n2: seq<string>, v: string)
    requires |p1| == |n1| + 1 && |p2| == |n2| + 1
    requires PlainParts(p1, n1) && PlainParts(p2, n2) && PlainName(v)
    ensures Contains(Render(Interleave(p1, n1)) + Render(Interleave(p2, n2)), Placeholder(v)) <==> v in n1 + n2
  {
    RenderConcat(p1, n1, p2, n2);
    var joined := JoinedProse(p1, p2);
    assert PlainParts(joined, n1 + n2) by {
      assert p1[|p1| - 1] in p1 && p2[0] in p2;
      forall t | t in joined ensures '{' !in t {
        if t in p1[..|p1| - 1] {
          assert t in p1;
        } else if t in p2[1..] {
          assert t in p2;
        }
      }
      forall n | n in n1 + n2 ensures PlainName(n) {
        if n in n1 { } else { assert n in n2; }
      }
    }
    InterleaveHolds(joined, n1 + n2, v);
  }

  /** A template's text ends with its last prose piece. */
  lemma RenderEndsWith(prose: seq<string>, names: seq<string>)
    requires |prose| == |names| + 1
    ensures var r, last := Render(Interleave(prose, names)), prose[|prose| - 1];
      |last| <= |r| && r[|r| - |last|..] == last
  {
    var last := prose[|prose| - 1];
    var init := InterleaveEndsWithProse(prose, names);
    RenderOfAppend(init, [Prose(last)]);
    assert Render([Prose(last)]) == last + Render([]);
    SuffixOfConcat(Render(init), last, last);
  }

  /** The pieces of a template end with its last prose piece. */
  lemma {:induction false} InterleaveEndsWithProse(prose: seq<string>, names: seq<string>) returns (init: seq<Piece>)
    requires |prose| == |names| + 1
    ensures Interleave(prose, names) == init + [Prose(prose[|prose| - 1])]
    decreases names
  {
    if names == [] {
      init := [];
    } else {
      var rest := InterleaveEndsWithProse(prose[1..], names[1..]);
      assert prose[1..][|prose[1..]| - 1] == prose[|prose| - 1];
      init := [Prose(prose[0]), Slot(names[0])] + rest;
    }
  }

  /** A suffix of the second text is a suffix of the two texts written one after the other. */
  lemma SuffixOfConcat(a: string, b: string, k: string)
    requires |k| <= |b| && b[|b| - |k|..] == k
    ensures |k| <= |a + b| && (a + b)[|a + b| - |k|..] == k
  {
    assert (a + b)[|a + b| - |k|..] == b[|b| - |k|..];
  }

  /** A template with a slot begins with its first prose piece and that slot's placeholder. */
  lemma RenderStartsWith(prose: seq<string>, names: seq<string>)
    requires |prose| == |names| + 1 && names != []
    ensures var r, first := Render(Interleave(prose, names)), prose[0] + Placeholder(names[0]);
      |first| <= |r| && r[..|first|] == first
  {
    var first := prose[0] + Placeholder(names[0]);
    var ri := Render(Interleave(prose[1..], names[1..]));
    RenderFirstSlot(prose, names);
    assert (first + ri)[..|first|] == first;
  }
}
