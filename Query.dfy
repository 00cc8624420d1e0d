/** The part of `URLSearchParams` the language context uses: building the
    list of name/value pairs from a search string, `get`, `set` and
    `toString`. The list is kept as a sequence of pairs; percent-encoding
    and `+`-as-space are not modelled, so a pair holds the raw text. */
module Query {
  import opened Strings

  datatype Option<T> = None | Some(value: T)

  datatype Pair = Pair(name: string, value: string)

  /** The names of the pairs, in list order. */
  function Names(q: seq<Pair>): (r: seq<string>)
    ensures |r| == |q|
    ensures forall i :: 0 <= i < |q| ==> r[i] == q[i].name
  {
    seq(|q|, i requires 0 <= i < |q| => q[i].name)
  }

  lemma NamesTail(q: seq<Pair>)
    requires |q| > 0
    ensures Names(q) == [q[0].name] + Names(q[1..])
  {
    assert Names(q)[1..] == Names(q[1..]);
  }

  /** A list that the parser below can produce: no `&` anywhere and no `=`
      in a name. Exactly these lists survive `Serialize` then `Parse`. */
  predicate WellFormed(q: seq<Pair>) {
    forall i :: 0 <= i < |q| ==> '&' !in q[i].name && '=' !in q[i].name && '&' !in q[i].value
  }

  /** One `name=value` piece: the name ends at the first `=`, and a piece
      without `=` is a name with an empty value. */
  function ParsePair(piece: string): (p: Pair)
    ensures '=' !in p.name
    ensures '=' in piece ==> piece == p.name + "=" + p.value
    ensures '=' !in piece ==> p == Pair(piece, "")
    decreases |piece|
  {
    if |piece| == 0 then Pair("", "")
    else if piece[0] == '=' then Pair("", piece[1..])
    else
      var p := ParsePair(piece[1..]);
      Pair([piece[0]] + p.name, p.value)
  }

  /** Pieces between `&`s become pairs; empty pieces are skipped. */
  function ParsePieces(pieces: seq<string>): (q: seq<Pair>)
    requires forall i :: 0 <= i < |pieces| ==> '&' !in pieces[i]
    ensures WellFormed(q)
    ensures |q| <= |pieces|
    decreases |pieces|
  {
    if |pieces| == 0 then []
    else
      var head := if pieces[0] == "" then [] else [ParsePair(pieces[0])];
      head + ParsePieces(pieces[1..])
  }

  /** `new URLSearchParams(search)`: one leading `?` is dropped, the rest is
      split on `&`. */
  function Parse(search: string): (q: seq<Pair>)
    ensures WellFormed(q)
  {
    var body := if |search| > 0 && search[0] == '?' then search[1..] else search;
    ParsePieces(Split(body, '&'))
  }

  function PairText(p: Pair): string {
    p.name + "=" + p.value
  }

  /** The `name=value` pieces of a list, in order. */
  function Pieces(q: seq<Pair>): (r: seq<string>)
    ensures |r| == |q|
    ensures forall i :: 0 <= i < |q| ==> r[i] == PairText(q[i])
  {
    seq(|q|, i requires 0 <= i < |q| => PairText(q[i]))
  }

  lemma PiecesTail(q: seq<Pair>)
    requires |q| > 0
    ensures Pieces(q) == [PairText(q[0])] + Pieces(q[1..])
  {
    assert Pieces(q)[1..] == Pieces(q[1..]);
  }

  /** `params.toString()`: the pairs as `name=value`, joined with `&`. */
  function Serialize(q: seq<Pair>): (r: string)
    ensures r == "" <==> |q| == 0
  {
    if |q| == 0 then "" else Join(Pieces(q), '&')
  }

  /** `params.get(name)`: the value of the first pair with that name. */
  function Lookup(q: seq<Pair>, name: string): (r: Option<string>)
    ensures r.None? <==> name !in Names(q)
    ensures r.Some? ==> Pair(name, r.value) in q
    ensures r.Some? ==> r.value == q[FirstIndex(q, name)].value
    decreases |q|
  {
    if |q| == 0 then None
    else if q[0].name == name then Some(q[0].value)
    else Lookup(q[1..], name)
  }

  /** Position of the first pair called `name`. */
  function FirstIndex(q: seq<Pair>, name: string): (i: nat)
    requires name in Names(q)
    ensures i < |q| && q[i].name == name
    ensures forall j :: 0 <= j < i ==> q[j].name != name
    decreases |q|
  {
    if q[0].name == name then 0 else 1 + FirstIndex(q[1..], name)
  }

  /** The pairs not called `name`, in their order. */
  function Remove(q: seq<Pair>, name: string): (r: seq<Pair>)
    ensures name !in Names(r)
    ensures |r| <= |q|
    decreases |q|
  {
    if |q| == 0 then []
    else if q[0].name == name then Remove(q[1..], name)
    else [q[0]] + Remove(q[1..], name)
  }

  /** Number of pairs called `name`. */
  function CountName(q: seq<Pair>, name: string): nat
    decreases |q|
  {
    if |q| == 0 then 0
    else (if q[0].name == name then 1 else 0) + CountName(q[1..], name)
  }

  function ReplaceFirst(q: seq<Pair>, name: string, value: string): seq<Pair>
    decreases |q|
  {
    if |q| == 0 then []
    else if q[0].name == name then [Pair(name, value)] + Remove(q[1..], name)
    else [q[0]] + ReplaceFirst(q[1..], name, value)
  }

  /** `params.set(name, value)`, following the `set()` steps of section 6.2
      of the WHATWG URL Standard: if a pair has the name, give the first one
      the value and drop the others; otherwise append a new pair. */
  function SetParam(q: seq<Pair>, name: string, value: string): (r: seq<Pair>)
    ensures Lookup(r, name) == Some(value)
  {
    if name in Names(q) then
      ReplaceFirstLookup(q, name, value);
      ReplaceFirst(q, name, value)
    else
      LookupAppendAbsent(q, Pair(name, value));
      q + [Pair(name, value)]
  }

  lemma {:induction false} RemoveAbsent(q: seq<Pair>, name: string)
    requires name !in Names(q)
    ensures Remove(q, name) == q
    decreases |q|
  {
    if |q| > 0 {
      NamesTail(q);
      RemoveAbsent(q[1..], name);
      assert [q[0]] + q[1..] == q;
    }
  }

  lemma {:induction false} RemoveTwice(q: seq<Pair>, name: string)
    ensures Remove(Remove(q, name), name) == Remove(q, name)
  {
    RemoveAbsent(Remove(q, name), name);
  }

  lemma {:induction false} CountRemoved(q: seq<Pair>, name: string)
    ensures CountName(Remove(q, name), name) == 0
    decreases |q|
  {
    if |q| > 0 {
      CountRemoved(q[1..], name);
      if q[0].name != name {
        assert ([q[0]] + Remove(q[1..], name))[1..] == Remove(q[1..], name);
      }
    }
  }

  lemma {:induction false} CountAppend(q: seq<Pair>, p: Pair, name: string)
    ensures CountName(q + [p], name) == CountName(q, name) + (if p.name == name then 1 else 0)
    decreases |q|
  {
    if |q| > 0 {
      assert (q + [p])[1..] == q[1..] + [p];
      CountAppend(q[1..], p, name);
    } else {
      assert ([] + [p])[1..] == [];
    }
  }

  lemma {:induction false} RemoveAppend(q: seq<Pair>, p: Pair, name: string)
    ensures Remove(q + [p], name) == Remove(q, name) + (if p.name == name then [] else [p])
    decreases |q|
  {
    if |q| > 0 {
      assert (q + [p])[1..] == q[1..] + [p];
      RemoveAppend(q[1..], p, name);
    } else {
      assert ([] + [p])[1..] == [];
    }
  }

  lemma {:induction false} ReplaceFirstCount(q: seq<Pair>, name: string, value: string)
    requires name in Names(q)
    ensures CountName(ReplaceFirst(q, name, value), name) == 1
    decreases |q|
  {
    var r := ReplaceFirst(q, name, value);
    if q[0].name == name {
      CountRemoved(q[1..], name);
      assert r[1..] == Remove(q[1..], name);
    } else {
      NamesTail(q);
      ReplaceFirstCount(q[1..], name, value);
      assert r[1..] == ReplaceFirst(q[1..], name, value);
    }
  }

  lemma {:induction false} ReplaceFirstLookup(q: seq<Pair>, name: string, value: string)
    requires name in Names(q)
    ensures Lookup(ReplaceFirst(q, name, value), name) == Some(value)
    decreases |q|
  {
    var r := ReplaceFirst(q, name, value);
    if q[0].name != name {
      NamesTail(q);
      ReplaceFirstLookup(q[1..], name, value);
      assert r[1..] == ReplaceFirst(q[1..], name, value);
    }
  }

  lemma {:induction false} ReplaceFirstRemove(q: seq<Pair>, name: string, value: string)
    requires name in Names(q)
    ensures Remove(ReplaceFirst(q, name, value), name) == Remove(q, name)
    decreases |q|
  {
    var r := ReplaceFirst(q, name, value);
    if q[0].name == name {
      RemoveTwice(q[1..], name);
      assert r[1..] == Remove(q[1..], name);
    } else {
      NamesTail(q);
      ReplaceFirstRemove(q[1..], name, value);
      assert r[1..] == ReplaceFirst(q[1..], name, value);
    }
  }

  /** After `set`, exactly one pair carries the name, `get` returns the new
      value, and the other pairs are the old ones in their old order. */
  lemma {:induction false} SetParamFacts(q: seq<Pair>, name: string, value: string)
    ensures CountName(SetParam(q, name, value), name) == 1
    ensures Lookup(SetParam(q, name, value), name) == Some(value)
    ensures Remove(SetParam(q, name, value), name) == Remove(q, name)
  {
    if name in Names(q) {
      ReplaceFirstCount(q, name, value);
      ReplaceFirstLookup(q, name, value);
      ReplaceFirstRemove(q, name, value);
    } else {
      var p := Pair(name, value);
      CountAppend(q, p, name);
      RemoveAppend(q, p, name);
      assert CountName(q, name) == 0 by { RemoveAbsent(q, name); CountRemoved(q, name); }
      LookupAppendAbsent(q, p);
    }
  }

  lemma {:induction false} LookupAppendAbsent(q: seq<Pair>, p: Pair)
    requires p.name !in Names(q)
    ensures Lookup(q + [p], p.name) == Some(p.value)
    decreases |q|
  {
    if |q| > 0 {
      assert (q + [p])[1..] == q[1..] + [p];
      NamesTail(q);
      LookupAppendAbsent(q[1..], p);
    } else {
      assert [] + [p] == [p];
    }
  }

  lemma {:induction false} ReplaceFirstPrefix(q: seq<Pair>, name: string, value: string, i: nat)
    requires i < |q| && q[i].name == name
    requires forall j :: 0 <= j < i ==> q[j].name != name
    ensures ReplaceFirst(q, name, value) == q[..i] + [Pair(name, value)] + Remove(q[i + 1..], name)
    decreases i
  {
    if i > 0 {
      var t := q[1..];
      ReplaceFirstPrefix(t, name, value, i - 1);
      assert t[i..] == q[i + 1..];
      assert [q[0]] + t[..i - 1] == q[..i];
    }
  }

  /** When the name is absent, the new pair goes at the end and every old
      pair keeps its place. */
  lemma SetParamAppends(q: seq<Pair>, name: string, value: string)
    requires name !in Names(q)
    ensures SetParam(q, name, value) == q + [Pair(name, value)]
    ensures |SetParam(q, name, value)| == |q| + 1
  {
  }

  /** When the name is present, the new pair takes the place of the first
      old one: the pairs before it are untouched. */
  lemma SetParamKeepsPosition(q: seq<Pair>, name: string, value: string)
    requires name in Names(q)
    ensures var i := FirstIndex(q, name);
      SetParam(q, name, value) == q[..i] + [Pair(name, value)] + Remove(q[i + 1..], name)
  {
    ReplaceFirstPrefix(q, name, value, FirstIndex(q, name));
  }

  lemma {:induction false} ReplaceFirstSame(q: seq<Pair>, name: string, value: string)
    requires CountName(q, name) == 1 && Lookup(q, name) == Some(value)
    ensures ReplaceFirst(q, name, value) == q
    decreases |q|
  {
    if q[0].name == name {
      CountZeroAbsent(q[1..], name);
      RemoveAbsent(q[1..], name);
      assert [q[0]] + q[1..] == q;
    } else {
      assert Lookup(q[1..], name) == Lookup(q, name);
      assert CountName(q[1..], name) == 1;
      ReplaceFirstSame(q[1..], name, value);
      assert [q[0]] + q[1..] == q;
    }
  }

  lemma {:induction false} CountZeroAbsent(q: seq<Pair>, name: string)
    requires CountName(q, name) == 0
    ensures name !in Names(q)
    decreases |q|
  {
    if |q| > 0 {
      CountZeroAbsent(q[1..], name);
      NamesTail(q);
    }
  }

  /** Setting the same value twice gives the same list as setting it once. */
  lemma SetParamIdempotent(q: seq<Pair>, name: string, value: string)
    ensures SetParam(SetParam(q, name, value), name, value) == SetParam(q, name, value)
  {
    var r := SetParam(q, name, value);
    SetParamFacts(q, name, value);
    ReplaceFirstSame(r, name, value);
  }

  lemma SetParamWellFormed(q: seq<Pair>, name: string, value: string)
    requires WellFormed(q)
    requires '&' !in name && '=' !in name && '&' !in value
    ensures WellFormed(SetParam(q, name, value))
  {
    var p := [Pair(name, value)];
    if name in Names(q) {
      var i := FirstIndex(q, name);
      ReplaceFirstPrefix(q, name, value, i);
      var rest := q[i + 1..];
      assert WellFormed(rest) && WellFormed(q[..i]);
      RemoveWellFormed(rest, name);
      WellFormedConcat(q[..i], p);
      WellFormedConcat(q[..i] + p, Remove(rest, name));
    } else {
      WellFormedConcat(q, p);
    }
  }

  lemma WellFormedConcat(a: seq<Pair>, b: seq<Pair>)
    requires WellFormed(a) && WellFormed(b)
    ensures WellFormed(a + b)
  {
    forall i | 0 <= i < |a + b|
      ensures '&' !in (a + b)[i].name && '=' !in (a + b)[i].name && '&' !in (a + b)[i].value
    {
      if i >= |a| {
        assert (a + b)[i] == b[i - |a|];
      }
    }
  }

  lemma {:induction false} RemoveWellFormed(q: seq<Pair>, name: string)
    requires WellFormed(q)
    ensures WellFormed(Remove(q, name))
    decreases |q|
  {
    if |q| > 0 {
      RemoveWellFormed(q[1..], name);
    }
  }

  lemma {:induction false} ParsePairOf(name: string, value: string)
    requires '=' !in name
    ensures ParsePair(name + "=" + value) == Pair(name, value)
    decreases |name|
  {
    var piece := name + "=" + value;
    if |name| == 0 {
      assert piece[1..] == value;
    } else {
      assert piece[1..] == name[1..] + "=" + value;
      ParsePairOf(name[1..], value);
      assert [name[0]] + name[1..] == name;
    }
  }

  lemma {:induction false} ParsePiecesOfPairs(q: seq<Pair>)
    requires WellFormed(q)
    ensures forall i :: 0 <= i < |q| ==> '&' !in Pieces(q)[i]
    ensures ParsePieces(Pieces(q)) == q
    decreases |q|
  {
    if |q| > 0 {
      var p := Pieces(q);
      PiecesTail(q);
      ParsePiecesOfPairs(q[1..]);
      ParsePairOf(q[0].name, q[0].value);
      assert p[0] != "";
      assert p[1..] == Pieces(q[1..]);
      assert ParsePieces(p) == [ParsePair(p[0])] + ParsePieces(p[1..]);
      assert [q[0]] + q[1..] == q;
    }
  }

  /** `toString` then parsing (with the `?` a URL adds in front) gives the
      same list back. */
  lemma ParseSerialize(q: seq<Pair>)
    requires WellFormed(q)
    ensures Parse("?" + Serialize(q)) == q
  {
    var s := "?" + Serialize(q);
    assert s[1..] == Serialize(q);
    if |q| == 0 {
      assert Split("", '&') == [""];
    } else {
      ParsePiecesOfPairs(q);
      SplitJoin(Pieces(q), '&');
    }
  }

  /** `URLSearchParams`, an object whose list `set` changes in place. */
  class SearchParams {
    var list: seq<Pair>

    constructor (init: string)
      ensures list == Parse(init)
    {
      list := Parse(init);
    }

    /** `get`: the value of the first pair with that name, if any. */
    function Get(name: string): (r: Option<string>)
      reads this
      ensures r.None? <==> name !in Names(list)
      ensures r.Some? ==> r.value == list[FirstIndex(list, name)].value
    {
      Lookup(list, name)
    }

    method Set(name: string, value: string)
      modifies this
      ensures list == SetParam(old(list), name, value)
      ensures Get(name) == Some(value)
      ensures Remove(list, name) == Remove(old(list), name)
    {
      SetParamFacts(list, name, value);
      list := SetParam(list, name, value);
    }

    /** `toString`: the pairs joined back into query text. */
    function ToString(): (r: string)
      reads this
      ensures r == "" <==> |list| == 0
    {
      Serialize(list)
    }
  }
}
