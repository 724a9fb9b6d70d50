/** Nested configuration maps: inserting a value at a dotted path creates the maps on its way in place. */
module SchemaTrie {
  import opened Evidence

  type Path = seq<string>
  type Scalar = string

  /** An entry of a map: a value, or another map by its number. */
  datatype Slot = Leaf(value: Scalar) | Child(node: nat)

  /** One path stands in the way of another: equal, or a segment prefix either way. */
  predicate Conflict(p: Path, q: Path) { p <= q || q <= p }

  predicate NoEmptySegment(p: Path) { forall i | 0 <= i < |p| :: p[i] != "" }

  ghost predicate Free(contents: map<Path, Scalar>, p: Path) { forall q | q in contents :: !Conflict(p, q) }

  function Down(q: Path, part: string): Path { q + [part] }

  lemma DownFacts()
    ensures forall q: Path, part, r: Path, x :: Down(q, part) == Down(r, x) ==> q == r && part == x
    ensures forall q: Path, part :: Down(q, part) != []
  {
    forall q: Path, part, r: Path, x | Down(q, part) == Down(r, x)
      ensures q == r && part == x
    {
      assert Down(q, part)[..|q|] == q && Down(r, x)[..|r|] == r;
    }
  }

  lemma DownSplits(p: Path)
    requires p != []
    ensures p == Down(p[..|p| - 1], p[|p| - 1])
  {
  }

  /** Every entry of the maps is what `at` and `contents` say of its path. */
  ghost predicate SlotsFit(nodes: seq<map<string, Slot>>, at: map<Path, nat>, contents: map<Path, Scalar>) {
    forall q, part | q in at && at[q] < |nodes| && part in nodes[at[q]] ::
      match nodes[at[q]][part]
      case Leaf(value) => Down(q, part) in contents && contents[Down(q, part)] == value
      case Child(node) => Down(q, part) in at && at[Down(q, part)] == node
  }

  /** Every map but the root hangs below its parent. */
  ghost predicate MapsFit(nodes: seq<map<string, Slot>>, at: map<Path, nat>) {
    [] in at && at[[]] == 0 && (forall q | q in at :: at[q] < |nodes|) && (forall q, r | q in at && r in at && at[q] == at[r] :: q == r) &&
    forall q, part | Down(q, part) in at :: q in at && part in nodes[at[q]] && nodes[at[q]][part] == Child(at[Down(q, part)])
  }

  /** Every value stands where its path says. */
  ghost predicate ValuesFit(nodes: seq<map<string, Slot>>, at: map<Path, nat>, contents: map<Path, Scalar>) {
    [] !in contents &&
    forall q, part | Down(q, part) in contents :: q in at && at[q] < |nodes| && part in nodes[at[q]] && nodes[at[q]][part] == Leaf(contents[Down(q, part)])
  }

  /** Where each map stands, `at`, and what the whole holds, `contents`, describe the same maps. */
  ghost predicate Wired(nodes: seq<map<string, Slot>>, at: map<Path, nat>, contents: map<Path, Scalar>) {
    MapsFit(nodes, at) && SlotsFit(nodes, at, contents) && ValuesFit(nodes, at, contents)
  }

  /** Every map below the root leads to a value, or lies on the path that is being inserted. */
  ghost predicate Inhabited(at: map<Path, nat>, contents: map<Path, Scalar>, way: Path) {
    forall q | q in at && q != [] :: q <= way || Leads(contents, q)
  }

  ghost predicate Leads(contents: map<Path, Scalar>, q: Path) { exists p :: p in contents && q <= p }

  /** Every proper prefix of a stored path is a map. */
  lemma {:induction false} PrefixIsNode(nodes: seq<map<string, Slot>>, at: map<Path, nat>, contents: map<Path, Scalar>, p: Path, k: nat)
    requires Wired(nodes, at, contents) && (p in contents || p in at) && k < |p|
    ensures p[..k] in at
    decreases |p|
  {
    hide Down, SlotsFit;
    var up := p[..|p| - 1];
    DownSplits(p);
    if k < |up| {
      PrefixIsNode(nodes, at, contents, up, k);
      assert up[..k] == p[..k];
    } else {
      assert p[..k] == up;
    }
  }

  class Config {
    var nodes: seq<map<string, Slot>>
    ghost var at: map<Path, nat>
    ghost var contents: map<Path, Scalar>

    ghost predicate Valid() reads this { Wired(nodes, at, contents) && Inhabited(at, contents, []) }

    constructor ()
      ensures Valid() && contents == map[]
    {
      nodes := [map[]];
      at, contents := map[[] := 0], map[];
    }

    /** Makes an empty map under `part` of the map at `place`. */
    method AddChild(cursor: nat, part: string, ghost place: Path) returns (child: nat)
      requires Wired(nodes, at, contents) && place in at && at[place] == cursor && part !in nodes[cursor]
      modifies this`nodes, this`at
      ensures Wired(nodes, at, contents) && at == old(at)[Down(place, part) := child]
    {
      hide Down, SlotsFit, ValuesFit;
      ghost var before, spots := nodes, at;
      child := |nodes|;
      nodes := nodes[cursor := nodes[cursor][part := Child(child)]] + [map[]];
      at := at[Down(place, part) := child];
      ChildWired(before, spots, contents, place, part);
    }

    /** Walks one segment down, making a map where there is none; stops at a value. */
    method Descend(cursor: nat, part: string, ghost place: Path) returns (next: Option<nat>)
      requires Wired(nodes, at, contents) && place in at && at[place] == cursor
      modifies this`nodes, this`at
      ensures Wired(nodes, at, contents)
      ensures next.None? ==> Down(place, part) in contents
      ensures next.Some? ==> Down(place, part) !in contents && Down(place, part) in at && at[Down(place, part)] == next.value
      ensures at == old(at) || (Down(place, part) in at && at == old(at)[Down(place, part) := at[Down(place, part)]])
    {
      hide Down;
      if part !in nodes[cursor] {
        ChildIsNew(nodes, at, contents, place, part);
        var child := AddChild(cursor, part, place);
        return Some(child);
      }
      match nodes[cursor][part] {
        case Leaf(_) => next := None;
        case Child(node) => next := Some(node);
      }
    }

    /** The value stored at a path. */
    method Read(parts: Path) returns (value: Option<Scalar>)
      requires Valid() && parts != []
      ensures value == if parts in contents then Some(contents[parts]) else None
    {
      hide Down, Inhabited;
      var cursor: nat := 0;
      assert parts[..0] == [];
      for i := 0 to |parts| - 1
        invariant parts[..i] in at && at[parts[..i]] == cursor
      {
        DownSplits(parts[..i + 1]);
        assert parts[..i + 1][..i] == parts[..i];
        if parts[i] !in nodes[cursor] || nodes[cursor][parts[i]].Leaf? {
          if parts in contents { NotANode(nodes, at, contents, parts, i); }
          return None;
        }
        cursor := nodes[cursor][parts[i]].node;
      }
      var last := parts[|parts| - 1];
      DownSplits(parts);
      if last !in nodes[cursor] || nodes[cursor][last].Child? { return None; }
      value := Some(nodes[cursor][last].value);
    }

    /** Sets a value at a path. It succeeds exactly when no segment is empty and no stored path stands in the way. */
    method SetPath(parts: Path, value: Scalar) returns (ok: bool)
      requires Valid() && parts != []
      modifies this
      ensures ok <==> NoEmptySegment(parts) && Free(old(contents), parts)
      ensures ok ==> Valid() && contents == old(contents)[parts := value]
      ensures !ok ==> contents == old(contents)
    {
      hide Down, SlotsFit, ValuesFit, MapsFit, Inhabited;
      RootIsFirst(nodes, at);
      var cursor: nat := 0;
      assert parts[..0] == [];
      for i := 0 to |parts| - 1
        invariant Wired(nodes, at, contents) && Inhabited(at, contents, parts[..i]) && contents == old(contents)
        invariant parts[..i] in at && at[parts[..i]] == cursor && NoEmptySegment(parts[..i])
        invariant forall j | 0 < j <= i :: parts[..j] !in contents
      {
        var part := parts[i];
        DownSplits(parts[..i + 1]);
        assert parts[..i + 1][..i] == parts[..i];
        if part == "" { return false; }
        ghost var before := at;
        var next := Descend(cursor, part, parts[..i]);
        if next.None? {
          assert parts[..i + 1] <= parts;
          return false;
        }
        WayGrows(before, at, contents, parts[..i], parts[..i + 1]);
        cursor := next.value;
      }
      var last := parts[|parts| - 1];
      DownSplits(parts);
      if last == "" { return false; }
      MapInRange(nodes, at, parts[..|parts| - 1]);
      if last in nodes[cursor] {
        Blocked(nodes, at, contents, parts);
        return false;
      }
      FreeHere(nodes, at, contents, parts);
      LeafWired(nodes, at, contents, parts[..|parts| - 1], last, value);
      StillInhabited(at, contents, parts, value);
      nodes := nodes[cursor := nodes[cursor][last := Leaf(value)]];
      contents := contents[parts := value];
      ok := true;
    }
  }

  /** On the way to a stored path every segment names a map. */
  lemma NotANode(nodes: seq<map<string, Slot>>, at: map<Path, nat>, contents: map<Path, Scalar>, p: Path, i: nat)
    requires Wired(nodes, at, contents) && p in contents && i + 1 < |p|
    ensures p[..i] in at && p[i] in nodes[at[p[..i]]] && nodes[at[p[..i]]][p[i]].Child?
  {
    hide Down, SlotsFit, ValuesFit;
    PrefixIsNode(nodes, at, contents, p, i + 1);
    DownSplits(p[..i + 1]);
    assert p[..i + 1][..i] == p[..i];
  }

  lemma MapInRange(nodes: seq<map<string, Slot>>, at: map<Path, nat>, q: Path)
    requires MapsFit(nodes, at) && q in at
    ensures at[q] < |nodes|
  {
  }

  lemma RootIsFirst(nodes: seq<map<string, Slot>>, at: map<Path, nat>)
    requires MapsFit(nodes, at)
    ensures [] in at && at[[]] == 0 && |nodes| > 0
  {
  }

  lemma ChildIsNew(nodes: seq<map<string, Slot>>, at: map<Path, nat>, contents: map<Path, Scalar>, place: Path, part: string)
    requires Wired(nodes, at, contents) && place in at && part !in nodes[at[place]]
    ensures Down(place, part) !in at && Down(place, part) !in contents
  {
    hide Down;
  }

  lemma ChildWired(nodes: seq<map<string, Slot>>, at: map<Path, nat>, contents: map<Path, Scalar>, place: Path, part: string)
    requires Wired(nodes, at, contents) && place in at && part !in nodes[at[place]]
    ensures Wired(nodes[at[place] := nodes[at[place]][part := Child(|nodes|)]] + [map[]], at[Down(place, part) := |nodes|], contents)
  {
    hide Down, MapsFit, SlotsFit, ValuesFit;
    ChildMapsFit(nodes, at, contents, place, part);
    ChildSlotsFit(nodes, at, contents, place, part);
    ChildValuesFit(nodes, at, contents, place, part);
  }

  lemma ChildMapsFit(nodes: seq<map<string, Slot>>, at: map<Path, nat>, contents: map<Path, Scalar>, place: Path, part: string)
    requires Wired(nodes, at, contents) && place in at && part !in nodes[at[place]]
    ensures MapsFit(nodes[at[place] := nodes[at[place]][part := Child(|nodes|)]] + [map[]], at[Down(place, part) := |nodes|])
  {
    hide Down, SlotsFit, ValuesFit;
    DownFacts();
    ChildIsNew(nodes, at, contents, place, part);
  }

  lemma ChildSlotsFit(nodes: seq<map<string, Slot>>, at: map<Path, nat>, contents: map<Path, Scalar>, place: Path, part: string)
    requires Wired(nodes, at, contents) && place in at && part !in nodes[at[place]]
    ensures SlotsFit(nodes[at[place] := nodes[at[place]][part := Child(|nodes|)]] + [map[]], at[Down(place, part) := |nodes|], contents)
  {
    hide Down, ValuesFit;
    DownFacts();
    ChildIsNew(nodes, at, contents, place, part);
  }

  lemma ChildValuesFit(nodes: seq<map<string, Slot>>, at: map<Path, nat>, contents: map<Path, Scalar>, place: Path, part: string)
    requires Wired(nodes, at, contents) && place in at && part !in nodes[at[place]]
    ensures ValuesFit(nodes[at[place] := nodes[at[place]][part := Child(|nodes|)]] + [map[]], at[Down(place, part) := |nodes|], contents)
  {
    hide Down, SlotsFit;
    DownFacts();
    ChildIsNew(nodes, at, contents, place, part);
  }

  lemma WayGrows(before: map<Path, nat>, at: map<Path, nat>, contents: map<Path, Scalar>, way: Path, longer: Path)
    requires Inhabited(before, contents, way) && way <= longer && (at == before || (longer in at && at == before[longer := at[longer]]))
    ensures Inhabited(at, contents, longer)
  {
    hide Leads;
  }

  /** An occupied last segment means that a stored path is in the way. */
  lemma Blocked(nodes: seq<map<string, Slot>>, at: map<Path, nat>, contents: map<Path, Scalar>, parts: Path)
    requires Wired(nodes, at, contents) && parts != [] && parts[..|parts| - 1] in at && parts[|parts| - 1] in nodes[at[parts[..|parts| - 1]]]
    requires Inhabited(at, contents, parts[..|parts| - 1])
    ensures !Free(contents, parts)
  {
    hide Down, ValuesFit;
    var up, last := parts[..|parts| - 1], parts[|parts| - 1];
    DownSplits(parts);
    if nodes[at[up]][last].Leaf? {
      assert parts in contents && Conflict(parts, parts);
    } else {
      assert Leads(contents, parts);
      var p :| p in contents && parts <= p;
      assert Conflict(parts, p);
    }
  }

  /** With every map on the way free of values and the last segment unused, nothing is in the way. */
  lemma FreeHere(nodes: seq<map<string, Slot>>, at: map<Path, nat>, contents: map<Path, Scalar>, parts: Path)
    requires Wired(nodes, at, contents) && parts != [] && parts[..|parts| - 1] in at && parts[|parts| - 1] !in nodes[at[parts[..|parts| - 1]]]
    requires forall j | 0 < j < |parts| :: parts[..j] !in contents
    ensures Free(contents, parts)
  {
    hide Down, SlotsFit, MapsFit;
    DownSplits(parts);
    ChildIsNew(nodes, at, contents, parts[..|parts| - 1], parts[|parts| - 1]);
    forall q | q in contents ensures !Conflict(parts, q) {
      if |q| < |parts| {
        var head := parts[..|q|];
        assert head !in contents && (q <= parts ==> q == head);
      }
      assert q <= parts && |q| == |parts| ==> q == parts;
      if |parts| < |q| {
        PrefixIsNode(nodes, at, contents, q, |parts|);
        var head := q[..|parts|];
        assert parts <= q ==> head == parts;
      }
    }
  }

  lemma LeafWired(nodes: seq<map<string, Slot>>, at: map<Path, nat>, contents: map<Path, Scalar>, up: Path, last: string, value: Scalar)
    requires Wired(nodes, at, contents) && up in at && last !in nodes[at[up]]
    ensures Wired(nodes[at[up] := nodes[at[up]][last := Leaf(value)]], at, contents[Down(up, last) := value])
  {
    hide Down;
    DownFacts();
    ChildIsNew(nodes, at, contents, up, last);
  }

  lemma StillInhabited(at: map<Path, nat>, contents: map<Path, Scalar>, parts: Path, value: Scalar)
    requires parts != [] && Inhabited(at, contents, parts[..|parts| - 1])
    ensures Inhabited(at, contents[parts := value], [])
  {
    var all := contents[parts := value];
    forall q | q in at && q != [] ensures Leads(all, q) {
      if q <= parts[..|parts| - 1] {
        assert parts in all && q <= parts;
      } else {
        var p :| p in contents && q <= p;
        assert p in all;
      }
    }
  }

  // ---------------------------------------------------------------- dotted paths

  const DOT := '.'

  /** The segments after one more character. */
  function Longer(parts: Path, c: char): (longer: Path)
    requires parts != []
    ensures longer != []
  {
    if c == DOT then parts + [""] else parts[..|parts| - 1] + [parts[|parts| - 1] + [c]]
  }

  /** The segments of a dotted path; there is always at least one. */
  function Split(s: string): (parts: Path)
    ensures parts != []
  {
    if s == "" then [""] else Longer(Split(s[..|s| - 1]), s[|s| - 1])
  }

  function Join(parts: Path): string
    requires parts != []
  {
    if |parts| == 1 then parts[0] else Join(parts[..|parts| - 1]) + [DOT] + parts[|parts| - 1]
  }

  /** Different dotted paths have different segments. */
  lemma {:induction false} JoinSplit(s: string)
    ensures Join(Split(s)) == s
  {
    if s != "" {
      var init, c := s[..|s| - 1], s[|s| - 1];
      JoinSplit(init);
      var parts := Split(init);
      assert s == init + [c];
      if c == DOT {
        assert (parts + [""])[..|parts|] == parts;
        assert Join(parts + [""]) == Join(parts) + [DOT] + "";
      } else {
        JoinExtends(parts[..|parts| - 1], parts[|parts| - 1], c);
        assert parts[..|parts| - 1] + [parts[|parts| - 1]] == parts;
      }
    }
  }

  /** No segment holds a dot; together with `JoinSplit` this determines the segments. */
  lemma {:induction false} SegmentsHaveNoDot(s: string)
    ensures forall i | 0 <= i < |Split(s)| :: DOT !in Split(s)[i]
  {
    if s != "" { SegmentsHaveNoDot(s[..|s| - 1]); }
  }

  lemma {:induction false} SplitPart(part: string)
    requires DOT !in part
    ensures Split(part) == [part]
  {
    if part != "" {
      var n := |part| - 1;
      assert part == part[..n] + [part[n]];
      SplitPart(part[..n]);
    }
  }

  lemma SplitSnoc(s: string, c: char)
    ensures Split(s + [c]) == Longer(Split(s), c)
  {
    assert (s + [c])[..|s|] == s;
  }

  lemma LongerAtEnd(p: Path, q: Path, c: char)
    requires q != []
    ensures Longer(p + q, c) == p + Longer(q, c)
  {
    if c == DOT { assert p + q + [""] == p + (q + [""]); }
    else { assert (p + q)[..|p + q| - 1] == p + q[..|q| - 1]; }
  }

  lemma SplitNothing()
    ensures Split("") == [""]
  {
  }

  /** Whatever follows a dot is split on its own. */
  lemma {:induction false} SplitAtDot(a: string, b: string)
    ensures Split(a + [DOT] + b) == Split(a) + Split(b)
  {
    hide Split, Longer;
    if b == "" {
      SplitNothing();
      SplitSnoc(a, DOT);
      assert a + [DOT] + b == a + [DOT];
      assert Longer(Split(a), DOT) == Split(a) + [""] by { LongerByDot(Split(a)); }
    } else {
      var head, last, front := b[..|b| - 1], b[|b| - 1], a + [DOT] + b[..|b| - 1];
      SplitAtDot(a, head);
      SplitSnoc(head, last);
      SplitSnoc(front, last);
      LongerAtEnd(Split(a), Split(head), last);
      assert b == head + [last] && a + [DOT] + b == front + [last];
    }
  }

  lemma LongerByDot(parts: Path)
    requires parts != []
    ensures Longer(parts, DOT) == parts + [""]
  {
  }

  /** Dot-free segments are found again. */
  lemma {:induction false} SplitJoin(parts: Path)
    requires parts != [] && forall i | 0 <= i < |parts| :: DOT !in parts[i]
    ensures Split(Join(parts)) == parts
  {
    var n := |parts| - 1;
    SplitPart(parts[n]);
    if n > 0 {
      SplitJoin(parts[..n]);
      SplitAtDot(Join(parts[..n]), parts[n]);
    } else {
      assert parts == [parts[0]];
    }
  }

  lemma {:induction false} JoinBoth(p: Path, q: Path)
    requires p != [] && q != []
    ensures Join(p + q) == Join(p) + [DOT] + Join(q)
  {
    var n := |q| - 1;
    assert (p + q)[..|p| + n] == p + q[..n];
    if n > 0 { JoinBoth(p, q[..n]); } else { assert p + q[..n] == p; }
  }

  /** The segments of one path begin those of another exactly when the text is the same or goes on after a dot. */
  lemma BeginsByText(a: string, b: string)
    ensures Split(a) <= Split(b) <==> a == b || a + [DOT] <= b
  {
    hide Split, Join;
    if a + [DOT] <= b {
      var rest := b[|a| + 1..];
      assert b == a + [DOT] + rest;
      SplitAtDot(a, rest);
    } else if Split(a) <= Split(b) {
      BeginsInText(a, b, Split(b)[|Split(a)|..]);
    }
  }

  lemma BeginsInText(a: string, b: string, rest: Path)
    requires Split(b) == Split(a) + rest
    ensures a == b || a + [DOT] <= b
  {
    hide Split, Join;
    JoinSplit(a);
    JoinSplit(b);
    if rest == [] { assert Split(a) + rest == Split(a); }
    else {
      JoinBoth(Split(a), rest);
      assert b == a + [DOT] + Join(rest);
    }
  }

  /** Every segment but the last is non-empty. */
  predicate InnerFilled(parts: Path) { forall i | 0 <= i < |parts| - 1 :: parts[i] != "" }

  predicate DotsFollow(s: string) { forall k | 0 <= k < |s| && s[k] == DOT :: k > 0 && s[k - 1] != DOT }

  /** The dots of a text stand between non-empty segments. */
  predicate DotsSeparate(s: string) { s != "" && s[|s| - 1] != DOT && DotsFollow(s) }

  lemma InnerGrows(parts: Path, c: char)
    requires parts != []
    ensures var more := Longer(parts, c);
            (InnerFilled(more) <==> InnerFilled(parts) && (c == DOT ==> parts[|parts| - 1] != "")) && (more[|more| - 1] != "" <==> c != DOT)
  {
    var more, n := Longer(parts, c), |parts| - 1;
    assert forall i | 0 <= i < n :: more[i] == parts[i];
    if c == DOT { assert more[n] == parts[n]; }
  }

  lemma DotsGrow(s: string, c: char)
    ensures DotsFollow(s + [c]) <==> DotsFollow(s) && (c == DOT ==> s != "" && s[|s| - 1] != DOT)
  {
    var t, n := s + [c], |s|;
    assert t[n] == c && forall k | 0 <= k < n :: t[k] == s[k];
  }

  lemma {:induction false} SegmentsByText(s: string)
    ensures InnerFilled(Split(s)) <==> DotsFollow(s)
    ensures Split(s)[|Split(s)| - 1] != "" <==> s != "" && s[|s| - 1] != DOT
  {
    hide Split, Longer, InnerFilled, DotsFollow;
    if s == "" {
      SplitNothing();
      assert InnerFilled([""]) && DotsFollow("") by { NothingToSeparate(); }
    } else {
      var init, c := s[..|s| - 1], s[|s| - 1];
      assert s == init + [c];
      SegmentsByText(init);
      SplitSnoc(init, c);
      InnerGrows(Split(init), c);
      DotsGrow(init, c);
    }
  }

  lemma NothingToSeparate()
    ensures InnerFilled([""]) && DotsFollow("")
  {
  }

  lemma JoinDown(q: Path, part: string)
    requires q != []
    ensures Join(q + [part]) == Join(q) + [DOT] + part
  {
    assert (q + [part])[..|q|] == q;
  }

  lemma JoinExtends(q: Path, last: string, c: char)
    ensures Join(q + [last + [c]]) == Join(q + [last]) + [c]
  {
    if q == [] {
      assert q + [last] == [last] && q + [last + [c]] == [last + [c]];
    } else {
      hide Join;
      JoinDown(q, last);
      JoinDown(q, last + [c]);
      Regroup(Join(q) + [DOT], last, [c]);
    }
  }

  lemma Regroup(a: string, b: string, c: string)
    ensures a + (b + c) == a + b + c
  {
  }

  // ---------------------------------------------------------------- schemas

  /** `usable` stands for the spelling of the path, the kind of the field and the match of its default with it;
      `probe` is the value its kind is tried with. */
  datatype FieldSpec = FieldSpec(path: string, usable: bool, required: bool, default: Option<Scalar>, probe: Scalar)

  datatype Pair = Pair(path: Path, value: Scalar)

  /** No path is empty in a segment, equal to, or a prefix of, another. */
  ghost predicate PrefixFree(pairs: seq<Pair>) {
    (forall i | 0 <= i < |pairs| :: NoEmptySegment(pairs[i].path)) &&
    (forall i, j | 0 <= i < j < |pairs| :: !Conflict(pairs[i].path, pairs[j].path))
  }

  function ContentsOf(pairs: seq<Pair>): map<Path, Scalar> {
    if pairs == [] then map[] else ContentsOf(pairs[..|pairs| - 1])[pairs[|pairs| - 1].path := pairs[|pairs| - 1].value]
  }

  lemma {:induction false} ContentsKeys(pairs: seq<Pair>)
    ensures forall p :: p in ContentsOf(pairs) <==> exists i | 0 <= i < |pairs| :: pairs[i].path == p
  {
    if pairs != [] {
      var n := |pairs| - 1;
      ContentsKeys(pairs[..n]);
      forall p ensures p in ContentsOf(pairs) <==> exists i | 0 <= i < |pairs| :: pairs[i].path == p {
        if p in ContentsOf(pairs[..n]) {
          var i :| 0 <= i < n && pairs[..n][i].path == p;
          assert pairs[i].path == p;
        }
        if exists i | 0 <= i < n :: pairs[i].path == p {
          var i :| 0 <= i < n && pairs[i].path == p;
          assert pairs[..n][i].path == p;
        }
        assert pairs[n].path == p ==> p in ContentsOf(pairs);
      }
    }
  }

  /** Extending a prefix-free list keeps it so exactly when the new path is free of what is stored. */
  lemma PrefixFreeGrows(pairs: seq<Pair>, pair: Pair)
    ensures PrefixFree(pairs + [pair]) <==> PrefixFree(pairs) && NoEmptySegment(pair.path) && Free(ContentsOf(pairs), pair.path)
  {
    ContentsKeys(pairs);
    var all, n := pairs + [pair], |pairs|;
    assert forall i | 0 <= i < n :: all[i] == pairs[i];
    if PrefixFree(all) {
      assert forall i | 0 <= i < n :: !Conflict(all[i].path, all[n].path);
    }
    if Free(ContentsOf(pairs), pair.path) {
      assert forall i | 0 <= i < n :: pairs[i].path in ContentsOf(pairs);
    }
  }

  lemma {:induction false} PrefixFreePart(pairs: seq<Pair>, n: nat)
    requires n <= |pairs| && PrefixFree(pairs)
    ensures PrefixFree(pairs[..n])
  {
    assert forall i | 0 <= i < n :: pairs[..n][i] == pairs[i];
  }

  /** Inserting a list of values into an empty configuration succeeds exactly when their paths are prefix-free, and
      then it holds exactly them. */
  method InsertAll(pairs: seq<Pair>) returns (config: Config, ok: bool)
    requires forall i | 0 <= i < |pairs| :: pairs[i].path != []
    ensures fresh(config) && (ok <==> PrefixFree(pairs))
    ensures ok ==> config.Valid() && config.contents == ContentsOf(pairs)
  {
    hide PrefixFree, Free, NoEmptySegment;
    config := new Config();
    EmptyIsPrefixFree();
    assert pairs[..0] == [];
    for i := 0 to |pairs|
      invariant fresh(config) && config.Valid() && PrefixFree(pairs[..i]) && config.contents == ContentsOf(pairs[..i])
    {
      assert pairs[..i + 1] == pairs[..i] + [pairs[i]];
      PrefixFreeGrows(pairs[..i], pairs[i]);
      ok := config.SetPath(pairs[i].path, pairs[i].value);
      if !ok {
        if PrefixFree(pairs) { PrefixFreePart(pairs, i + 1); }
        return config, false;
      }
    }
    assert pairs[..|pairs|] == pairs;
    ok := true;
  }

  lemma EmptyIsPrefixFree()
    ensures PrefixFree([]) && ContentsOf([]) == map[]
  {
  }

  // ---------------------------------------------------------------- accepted schemas

  function ProbePairs(fields: seq<FieldSpec>): seq<Pair> {
    seq(|fields|, i requires 0 <= i < |fields| => Pair(Split(fields[i].path), fields[i].probe))
  }

  /** The defaulted fields, in order. */
  function DefaultPairs(fields: seq<FieldSpec>): (pairs: seq<Pair>)
    ensures forall i | 0 <= i < |pairs| :: pairs[i].path != []
  {
    if fields == [] then [] else
    var before, field := DefaultPairs(fields[..|fields| - 1]), fields[|fields| - 1];
    if field.default.None? then before else before + [Pair(Split(field.path), field.default.value)]
  }

  predicate Complete(fields: seq<FieldSpec>) { forall i | 0 <= i < |fields| :: fields[i].required ==> fields[i].default.Some? }

  /** `permitted` stands for the platform's own check that a configuration carries no forbidden field. */
  ghost predicate AcceptedSchema(fields: seq<FieldSpec>, permitted: bool) {
    permitted && (forall i | 0 <= i < |fields| :: fields[i].usable) && Complete(fields) && PrefixFree(ProbePairs(fields))
  }

  /** A schema is accepted exactly when it is permitted, every field is usable, every required field has a default, the dots
      of every path separate, no path is repeated, and none goes on after another and a dot. */
  lemma AcceptedByText(fields: seq<FieldSpec>, permitted: bool)
    ensures AcceptedSchema(fields, permitted) <==>
            permitted && (forall i | 0 <= i < |fields| :: fields[i].usable && (fields[i].required ==> fields[i].default.Some?)) &&
            (forall i | 0 <= i < |fields| :: DotsSeparate(fields[i].path)) &&
            forall i, j | 0 <= i < |fields| && 0 <= j < |fields| && i != j ::
              fields[i].path != fields[j].path && !(fields[i].path + "." <= fields[j].path)
  {
    hide Split, DotsSeparate, NoEmptySegment;
    var pairs := ProbePairs(fields);
    forall i | 0 <= i < |fields| ensures NoEmptySegment(pairs[i].path) <==> DotsSeparate(fields[i].path) { UsableByText(fields[i].path); }
    forall i, j | 0 <= i < |fields| && 0 <= j < |fields|
      ensures pairs[i].path <= pairs[j].path <==> fields[i].path == fields[j].path || fields[i].path + "." <= fields[j].path
    {
      BeginsByText(fields[i].path, fields[j].path);
    }
    PrefixFreeEitherWay(pairs);
  }

  lemma UsableByText(s: string)
    ensures NoEmptySegment(Split(s)) <==> DotsSeparate(s)
  {
    hide Split, DotsFollow;
    SegmentsByText(s);
    var parts, n := Split(s), |Split(s)| - 1;
    assert NoEmptySegment(parts) <==> InnerFilled(parts) && parts[n] != "";
  }

  lemma PrefixFreeEitherWay(pairs: seq<Pair>)
    ensures PrefixFree(pairs) <==> (forall i | 0 <= i < |pairs| :: NoEmptySegment(pairs[i].path)) &&
                                   forall i, j | 0 <= i < |pairs| && 0 <= j < |pairs| && i != j :: !(pairs[i].path <= pairs[j].path)
  {
    hide NoEmptySegment;
    if PrefixFree(pairs) {
      forall i, j | 0 <= i < |pairs| && 0 <= j < |pairs| && i != j ensures !(pairs[i].path <= pairs[j].path) {
        if i < j { assert !Conflict(pairs[i].path, pairs[j].path); } else { assert !Conflict(pairs[j].path, pairs[i].path); }
      }
    }
  }

  lemma {:induction false} DefaultsAreFields(fields: seq<FieldSpec>, k: nat)
    requires k < |DefaultPairs(fields)|
    ensures exists i | 0 <= i < |fields| :: fields[i].default.Some? && Split(fields[i].path) == DefaultPairs(fields)[k].path
  {
    hide Split;
    var n := |fields| - 1;
    if k < |DefaultPairs(fields[..n])| {
      DefaultsAreFields(fields[..n], k);
      var i :| 0 <= i < n && fields[..n][i].default.Some? && Split(fields[..n][i].path) == DefaultPairs(fields[..n])[k].path;
      assert fields[i].default.Some? && Split(fields[i].path) == DefaultPairs(fields)[k].path;
    }
  }

  lemma ProbesOfPart(fields: seq<FieldSpec>, n: nat)
    requires n <= |fields|
    ensures ProbePairs(fields[..n]) == ProbePairs(fields)[..n]
  {
  }

  /** The defaults of a schema whose fields are prefix-free are prefix-free. */
  lemma {:induction false} DefaultsArePrefixFree(fields: seq<FieldSpec>)
    requires PrefixFree(ProbePairs(fields))
    ensures PrefixFree(DefaultPairs(fields))
  {
    if fields != [] {
      var n := |fields| - 1;
      var probes, field := ProbePairs(fields), fields[n];
      ProbesOfPart(fields, n);
      PrefixFreePart(probes, n);
      DefaultsArePrefixFree(fields[..n]);
      if field.default.Some? { DefaultIsFree(fields); }
    }
  }

  lemma {:induction false} DefaultIsFree(fields: seq<FieldSpec>)
    requires fields != [] && PrefixFree(ProbePairs(fields)) && PrefixFree(DefaultPairs(fields[..|fields| - 1])) && fields[|fields| - 1].default.Some?
    ensures PrefixFree(DefaultPairs(fields))
  {
    var n := |fields| - 1;
    var before, field, probes := DefaultPairs(fields[..n]), fields[n], ProbePairs(fields);
    assert DefaultPairs(fields) == before + [Pair(Split(field.path), field.default.value)] by { DefaultsUnfold(fields); }
    assert probes[n].path == Split(field.path);
    forall k | 0 <= k < |before| ensures !Conflict(before[k].path, Split(field.path)) {
      DefaultsAreFields(fields[..n], k);
      var i :| 0 <= i < n && Split(fields[..n][i].path) == before[k].path;
      assert probes[i].path == before[k].path && !Conflict(probes[i].path, probes[n].path);
    }
  }

  lemma DefaultsUnfold(fields: seq<FieldSpec>)
    requires fields != []
    ensures DefaultPairs(fields) ==
            if fields[|fields| - 1].default.None? then DefaultPairs(fields[..|fields| - 1])
            else DefaultPairs(fields[..|fields| - 1]) + [Pair(Split(fields[|fields| - 1].path), fields[|fields| - 1].default.value)]
  {
  }

  /** The configurations that hold the first `i` probes and defaults of a schema. */
  ghost predicate Tried(fields: seq<FieldSpec>, i: nat, probe: Config, defaults: Config) reads probe, defaults {
    i <= |fields| && probe != defaults && probe.Valid() && defaults.Valid() && PrefixFree(ProbePairs(fields[..i])) &&
    probe.contents == ContentsOf(ProbePairs(fields[..i])) && defaults.contents == ContentsOf(DefaultPairs(fields[..i]))
  }

  /** Tries one more field with its probe value and its default. */
  method TryField(fields: seq<FieldSpec>, i: nat, probe: Config, defaults: Config) returns (ok: bool)
    requires i < |fields| && Tried(fields, i, probe, defaults)
    modifies probe, defaults
    ensures ok ==> Tried(fields, i + 1, probe, defaults) && (fields[i].required ==> fields[i].default.Some?)
    ensures !ok ==> !PrefixFree(ProbePairs(fields)) || (fields[i].required && fields[i].default.None?)
  {
    hide PrefixFree, Free, NoEmptySegment, Split, DefaultPairs, Wired, Inhabited;
    var field := fields[i];
    var path := Split(field.path);
    ProbeGrows(fields, i);
    var probed := probe.SetPath(path, field.probe);
    if !probed { return false; }
    DefaultGrows(fields, i);
    if field.default.None? { return !field.required; }
    ok := defaults.SetPath(path, field.default.value);
  }

  lemma ProbeGrows(fields: seq<FieldSpec>, i: nat)
    requires i < |fields| && PrefixFree(ProbePairs(fields[..i]))
    ensures var path := Split(fields[i].path);
            (PrefixFree(ProbePairs(fields[..i + 1])) <==> NoEmptySegment(path) && Free(ContentsOf(ProbePairs(fields[..i])), path)) &&
            ContentsOf(ProbePairs(fields[..i + 1])) == ContentsOf(ProbePairs(fields[..i]))[path := fields[i].probe]
    ensures PrefixFree(ProbePairs(fields)) ==> PrefixFree(ProbePairs(fields[..i + 1]))
  {
    hide PrefixFree, Free, NoEmptySegment, Split;
    var pairs, pair := ProbePairs(fields[..i]), Pair(Split(fields[i].path), fields[i].probe);
    ProbesGrow(fields, i);
    PrefixFreeGrows(pairs, pair);
    assert (pairs + [pair])[..|pairs|] == pairs;
    if PrefixFree(ProbePairs(fields)) {
      ProbesOfPart(fields, i + 1);
      PrefixFreePart(ProbePairs(fields), i + 1);
    }
  }

  lemma DefaultGrows(fields: seq<FieldSpec>, i: nat)
    requires i < |fields| && PrefixFree(ProbePairs(fields[..i + 1]))
    ensures var path := Split(fields[i].path);
            if fields[i].default.None? then DefaultPairs(fields[..i + 1]) == DefaultPairs(fields[..i])
            else NoEmptySegment(path) && Free(ContentsOf(DefaultPairs(fields[..i])), path) &&
                 ContentsOf(DefaultPairs(fields[..i + 1])) == ContentsOf(DefaultPairs(fields[..i]))[path := fields[i].default.value]
  {
    hide PrefixFree, Free, NoEmptySegment, Split, DefaultPairs;
    assert fields[..i + 1][..i] == fields[..i];
    DefaultsUnfold(fields[..i + 1]);
    DefaultsArePrefixFree(fields[..i + 1]);
    if fields[i].default.Some? {
      var pairs, pair := DefaultPairs(fields[..i]), Pair(Split(fields[i].path), fields[i].default.value);
      PrefixFreeGrows(pairs, pair);
      assert (pairs + [pair])[..|pairs|] == pairs;
    }
  }

  /** Tries every field with a probe value, and every default. */
  method ValidateSchema(fields: seq<FieldSpec>, permitted: bool) returns (ok: bool)
    ensures ok <==> AcceptedSchema(fields, permitted)
  {
    hide PrefixFree, Wired, Inhabited, ProbePairs, DefaultPairs, ContentsOf;
    var seen: set<string> := {};
    var probe := new Config();
    var defaults := new Config();
    NothingTried(fields, probe, defaults);
    for i := 0 to |fields|
      invariant fresh(probe) && fresh(defaults) && Tried(fields, i, probe, defaults)
      invariant forall j | 0 <= j < i :: fields[j].usable && (fields[j].required ==> fields[j].default.Some?)
      invariant forall p :: p in seen <==> exists j | 0 <= j < i :: fields[j].path == p
    {
      if !fields[i].usable { return false; }
      if fields[i].path in seen {
        RepeatedConflicts(fields, i);
        return false;
      }
      seen := seen + {fields[i].path};
      var tried := TryField(fields, i, probe, defaults);
      if !tried { return false; }
    }
    assert fields[..|fields|] == fields;
    ok := permitted;
  }

  lemma NothingTried(fields: seq<FieldSpec>, probe: Config, defaults: Config)
    requires probe != defaults && probe.Valid() && defaults.Valid() && probe.contents == map[] && defaults.contents == map[]
    ensures Tried(fields, 0, probe, defaults)
  {
    hide PrefixFree, Wired, Inhabited;
    EmptyIsPrefixFree();
    assert ProbePairs(fields[..0]) == [] && DefaultPairs(fields[..0]) == [];
  }

  lemma ProbesGrow(fields: seq<FieldSpec>, i: nat)
    requires i < |fields|
    ensures ProbePairs(fields[..i + 1]) == ProbePairs(fields[..i]) + [Pair(Split(fields[i].path), fields[i].probe)]
  {
    hide Split;
  }

  /** A repeated path conflicts with itself. */
  lemma RepeatedConflicts(fields: seq<FieldSpec>, i: nat)
    requires i < |fields| && exists j | 0 <= j < i :: fields[j].path == fields[i].path
    ensures !PrefixFree(ProbePairs(fields))
  {
    var j :| 0 <= j < i && fields[j].path == fields[i].path;
    assert Conflict(ProbePairs(fields)[j].path, ProbePairs(fields)[i].path);
  }

  /** The configuration a schema initialises. */
  method DefaultsFromSchema(fields: seq<FieldSpec>) returns (config: Config, ok: bool)
    ensures fresh(config) && (ok <==> Complete(fields) && PrefixFree(DefaultPairs(fields)))
    ensures ok ==> config.Valid() && config.contents == ContentsOf(DefaultPairs(fields))
  {
    hide PrefixFree, Free, NoEmptySegment, Split, DefaultPairs, Wired, Inhabited, ContentsOf;
    config := new Config();
    NoDefaults(fields);
    for i := 0 to |fields|
      invariant fresh(config) && config.Valid() && config.contents == ContentsOf(DefaultPairs(fields[..i])) && PrefixFree(DefaultPairs(fields[..i]))
      invariant Complete(fields[..i])
    {
      var field := fields[i];
      assert fields[..i + 1][..i] == fields[..i];
      NextDefault(fields, i);
      if field.default.None? {
        if field.required { return config, false; }
        continue;
      }
      ok := config.SetPath(Split(field.path), field.default.value);
      if !ok { return config, false; }
    }
    assert fields[..|fields|] == fields;
    ok := true;
  }

  lemma NoDefaults(fields: seq<FieldSpec>)
    ensures PrefixFree(DefaultPairs(fields[..0])) && ContentsOf(DefaultPairs(fields[..0])) == map[]
  {
    EmptyIsPrefixFree();
    assert DefaultPairs(fields[..0]) == [];
  }

  lemma NextDefault(fields: seq<FieldSpec>, i: nat)
    requires i < |fields| && PrefixFree(DefaultPairs(fields[..i]))
    ensures var path := Split(fields[i].path);
            if fields[i].default.None? then DefaultPairs(fields[..i + 1]) == DefaultPairs(fields[..i])
            else (PrefixFree(DefaultPairs(fields[..i + 1])) <==> NoEmptySegment(path) && Free(ContentsOf(DefaultPairs(fields[..i])), path)) &&
                 ContentsOf(DefaultPairs(fields[..i + 1])) == ContentsOf(DefaultPairs(fields[..i]))[path := fields[i].default.value]
    ensures PrefixFree(DefaultPairs(fields)) ==> PrefixFree(DefaultPairs(fields[..i + 1]))
  {
    hide PrefixFree, Free, NoEmptySegment, Split, DefaultPairs;
    assert fields[..i + 1][..i] == fields[..i];
    DefaultsUnfold(fields[..i + 1]);
    if fields[i].default.Some? {
      var pairs, pair := DefaultPairs(fields[..i]), Pair(Split(fields[i].path), fields[i].default.value);
      PrefixFreeGrows(pairs, pair);
      assert (pairs + [pair])[..|pairs|] == pairs;
    }
    if PrefixFree(DefaultPairs(fields)) { DefaultsOfPart(fields, i + 1); }
  }

  lemma {:induction false} DefaultsOfPart(fields: seq<FieldSpec>, n: nat)
    requires n <= |fields| && PrefixFree(DefaultPairs(fields))
    ensures PrefixFree(DefaultPairs(fields[..n]))
    decreases |fields|
  {
    hide PrefixFree, Split;
    if n == |fields| {
      assert fields[..n] == fields;
    } else {
      var m := |fields| - 1;
      DefaultsUnfold(fields);
      var before := DefaultPairs(fields[..m]);
      assert DefaultPairs(fields)[..|before|] == before;
      PrefixFreePart(DefaultPairs(fields), |before|);
      DefaultsOfPart(fields[..m], n);
      assert fields[..m][..n] == fields[..n];
    }
  }

  /** Prefix-free values are all read back. */
  lemma {:induction false} ReadsBack(pairs: seq<Pair>, i: nat)
    requires PrefixFree(pairs) && i < |pairs|
    ensures pairs[i].path in ContentsOf(pairs) && ContentsOf(pairs)[pairs[i].path] == pairs[i].value
  {
    var n := |pairs| - 1;
    if i < n {
      PrefixFreePart(pairs, n);
      ReadsBack(pairs[..n], i);
      assert !Conflict(pairs[i].path, pairs[n].path);
    }
  }

  lemma {:induction false} DefaultIsHeld(fields: seq<FieldSpec>, i: nat)
    requires i < |fields| && fields[i].default.Some?
    ensures exists k | 0 <= k < |DefaultPairs(fields)| :: DefaultPairs(fields)[k] == Pair(Split(fields[i].path), fields[i].default.value)
  {
    hide Split;
    var n := |fields| - 1;
    if i < n {
      DefaultIsHeld(fields[..n], i);
      var k :| 0 <= k < |DefaultPairs(fields[..n])| && DefaultPairs(fields[..n])[k] == Pair(Split(fields[i].path), fields[i].default.value);
      assert DefaultPairs(fields)[k] == DefaultPairs(fields[..n])[k];
    } else {
      assert DefaultPairs(fields)[|DefaultPairs(fields[..n])|] == Pair(Split(fields[i].path), fields[i].default.value);
    }
  }

  /** An accepted schema always initialises; every field with a default reads back its own, and nothing else is set. */
  lemma AcceptedSchemaInitialises(fields: seq<FieldSpec>, permitted: bool)
    requires AcceptedSchema(fields, permitted)
    ensures Complete(fields) && PrefixFree(DefaultPairs(fields))
    ensures var contents := ContentsOf(DefaultPairs(fields));
            (forall i | 0 <= i < |fields| && fields[i].default.Some? ::
               Split(fields[i].path) in contents && contents[Split(fields[i].path)] == fields[i].default.value) &&
            forall p | p in contents :: exists i | 0 <= i < |fields| :: fields[i].default.Some? && Split(fields[i].path) == p
  {
    hide Split, DefaultPairs, ContentsOf;
    DefaultsArePrefixFree(fields);
    var pairs := DefaultPairs(fields);
    forall i | 0 <= i < |fields| && fields[i].default.Some?
      ensures Split(fields[i].path) in ContentsOf(pairs) && ContentsOf(pairs)[Split(fields[i].path)] == fields[i].default.value
    {
      DefaultIsHeld(fields, i);
      var k :| 0 <= k < |pairs| && pairs[k] == Pair(Split(fields[i].path), fields[i].default.value);
      ReadsBack(pairs, k);
    }
    ContentsKeys(pairs);
    forall p | p in ContentsOf(pairs) ensures exists i | 0 <= i < |fields| :: fields[i].default.Some? && Split(fields[i].path) == p {
      var k :| 0 <= k < |pairs| && pairs[k].path == p;
      DefaultsAreFields(fields, k);
    }
  }

  predicate SameMembers(a: seq<Pair>, b: seq<Pair>) { (forall p | p in a :: p in b) && (forall p | p in b :: p in a) }

  /** What a configuration holds does not depend on the order in which its values were set. */
  lemma OrderIsFree(a: seq<Pair>, b: seq<Pair>)
    requires PrefixFree(a) && PrefixFree(b) && SameMembers(a, b)
    ensures ContentsOf(a) == ContentsOf(b)
  {
    ContentsKeys(a);
    ContentsKeys(b);
    forall p | p in ContentsOf(a)
      ensures p in ContentsOf(b) && ContentsOf(b)[p] == ContentsOf(a)[p]
    {
      var i :| 0 <= i < |a| && a[i].path == p;
      assert a[i] in b;
      var j :| 0 <= j < |b| && b[j] == a[i];
      ReadsBack(a, i);
      ReadsBack(b, j);
    }
    forall p | p in ContentsOf(b)
      ensures p in ContentsOf(a)
    {
      var j :| 0 <= j < |b| && b[j].path == p;
      assert b[j] in a;
      var i :| 0 <= i < |a| && a[i] == b[j];
      ReadsBack(a, i);
    }
  }

  lemma {:induction false} Twice(a: seq<Pair>, x: Pair)
    requires multiset(a)[x] >= 2
    ensures exists i, j | 0 <= i < j < |a| :: a[i] == x && a[j] == x
  {
    var n := |a| - 1;
    assert a == a[..n] + [a[n]];
    if a[n] == x {
      assert x in multiset(a[..n]);
      var i :| 0 <= i < n && a[..n][i] == x;
      assert a[i] == x && a[n] == x;
    } else {
      Twice(a[..n], x);
      var i, j :| 0 <= i < j < n && a[..n][i] == x && a[..n][j] == x;
      assert a[i] == x && a[j] == x;
    }
  }

  /** Whether the values of a list can all be set does not depend on their order either. */
  lemma PermutationStaysFree(a: seq<Pair>, b: seq<Pair>)
    requires multiset(a) == multiset(b) && PrefixFree(a)
    ensures PrefixFree(b) && ContentsOf(a) == ContentsOf(b)
  {
    hide NoEmptySegment, ContentsOf;
    forall i | 0 <= i < |b| ensures NoEmptySegment(b[i].path) {
      assert b[i] in multiset(b);
      var k :| 0 <= k < |a| && a[k] == b[i];
    }
    forall i, j | 0 <= i < j < |b| ensures !Conflict(b[i].path, b[j].path) {
      if b[i] == b[j] {
        assert b == b[..j] + [b[j]] + b[j + 1..] && b[i] in multiset(b[..j]);
        Twice(a, b[i]);
      } else {
        assert b[i] in multiset(b) && b[j] in multiset(b);
        var k :| 0 <= k < |a| && a[k] == b[i];
        var l :| 0 <= l < |a| && a[l] == b[j];
        if k < l { assert !Conflict(a[k].path, a[l].path); } else { assert !Conflict(a[l].path, a[k].path); }
      }
    }
    assert SameMembers(a, b) by {
      assert forall p :: p in a <==> p in multiset(a);
      assert forall p :: p in b <==> p in multiset(b);
    }
    OrderIsFree(a, b);
  }
}
