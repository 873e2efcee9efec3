/**
 The loop that SearchRequestExtended, SearchResponse and DescriptionResponse share:
 while raw[pos:] is not empty, parse one item there and advance by the length it reports.
 */
module ParseLoops {
  import opened Bytes

  /** An item parser: the item and the number of octets the loop advances by. */
  type ItemParser<!T> = Bytes -> Result<(T, nat)>

  /** The outcome of the loop. An advance of zero repeats the same pass for ever. */
  function ParseList<T>(item: ItemParser<T>, raw: Bytes): Result<seq<T>>
    decreases |raw|
  {
    if raw == [] then Ok([])
    else
      var (t, advance) :- item(raw);
      if advance == 0 then Err(Diverges)
      else Prepend([t], ParseList(item, From(raw, advance)))
  }

  /** The source's loop, from position `start`. */
  method ParseLoop<T>(item: ItemParser<T>, raw: Bytes, start: nat) returns (r: Result<seq<T>>)
    ensures r == ParseList(item, From(raw, start))
  {
    var pos := start;
    var items: seq<T> := [];
    PrependNothing(ParseList(item, From(raw, start)));
    while pos < |raw|
      invariant ParseList(item, From(raw, start)) == Prepend(items, ParseList(item, From(raw, pos)))
      decreases |raw| - pos
    {
      var parsed := item(From(raw, pos));
      if parsed.Err? {
        return Err(parsed.error);
      }
      var (t, advance) := parsed.value;
      if advance == 0 {
        return Err(Diverges);
      }
      FromFrom(raw, pos, advance);
      PrependPrepend(items, [t], ParseList(item, From(raw, pos + advance)));
      pos := pos + advance;
      items := items + [t];
    }
    assert From(raw, pos) == [];
    assert items + [] == items;
    r := Ok(items);
  }

  // ----------------------------------------------- passes of the loop, one by one

  datatype LoopState<T> = Running(pos: nat, items: seq<T>) | Done(items: seq<T>) | Raised(error: Error)

  /** One evaluation of the loop guard and, if it holds, of the loop body. */
  function Pass<T>(item: ItemParser<T>, raw: Bytes, s: LoopState<T>): LoopState<T> {
    if !s.Running? then s
    else if s.pos >= |raw| then Done(s.items)
    else
      match item(From(raw, s.pos))
      case Err(e) => Raised(e)
      case Ok(p) => Running(s.pos + p.1, s.items + [p.0])
  }

  function Passes<T>(item: ItemParser<T>, raw: Bytes, s: LoopState<T>, n: nat): LoopState<T>
    decreases n
  {
    if n == 0 then s else Passes(item, raw, Pass(item, raw, s), n - 1)
  }

  /** An advance of zero keeps the loop at the same octet, appending one more item each pass. */
  lemma {:induction false} StuckForever<T>(item: ItemParser<T>, raw: Bytes, s: LoopState<T>, n: nat)
    requires s.Running? && s.pos < |raw|
    requires item(From(raw, s.pos)).Ok? && item(From(raw, s.pos)).value.1 == 0
    ensures Passes(item, raw, s, n).Running?
    ensures Passes(item, raw, s, n).pos == s.pos && |Passes(item, raw, s, n).items| == |s.items| + n
    decreases n
  {
    if n > 0 {
      StuckForever(item, raw, Pass(item, raw, s), n - 1);
    }
  }

  lemma {:induction false} PassesStay<T>(item: ItemParser<T>, raw: Bytes, s: LoopState<T>, n: nat)
    requires !s.Running?
    ensures Passes(item, raw, s, n) == s
    decreases n
  {
    if n > 0 {
      PassesStay(item, raw, s, n - 1);
    }
  }

  /** What the loop has reached agrees with the outcome of ParseList on the rest of the input. */
  predicate Agrees<T(==)>(parsed: Result<seq<T>>, items: seq<T>, state: LoopState<T>, enough: bool) {
    if parsed == Err(Diverges) then state.Running?
    else enough ==> state == if parsed.Ok? then Done(items + parsed.value) else Raised(parsed.error)
  }

  lemma AgreesStep<T>(rest: Result<seq<T>>, items: seq<T>, t: T, state: LoopState<T>, enough: bool)
    requires Agrees(rest, items + [t], state, enough)
    ensures Agrees(Prepend([t], rest), items, state, enough)
  {
    if rest.Ok? {
      assert items + [t] + rest.value == items + ([t] + rest.value);
    }
  }

  lemma AgreesLess<T>(parsed: Result<seq<T>>, items: seq<T>, state: LoopState<T>, enough: bool, less: bool)
    requires Agrees(parsed, items, state, enough) && (less ==> enough)
    ensures Agrees(parsed, items, state, less)
  {
  }

  /**
   ParseList is the outcome of the loop: where it returns or raises, |raw| + 1 passes get
   there, and where it says Diverges the loop is still running after every number of passes.
   */
  lemma {:induction false} LoopOutcome<T>(item: ItemParser<T>, raw: Bytes, pos: nat, items: seq<T>, n: nat)
    requires forall b :: item(b) != Err(Diverges)
    ensures Agrees(ParseList(item, From(raw, pos)), items, Passes(item, raw, Running(pos, items), n), n > |From(raw, pos)|)
    decreases n
  {
    var here := From(raw, pos);
    if n == 0 {
    } else if pos >= |raw| {
      assert here == [];
      assert items + [] == items;
      PassesStay(item, raw, Done(items), n - 1);
    } else if item(here).Err? {
      PassesStay(item, raw, Raised(item(here).error), n - 1);
    } else if item(here).value.1 == 0 {
      StuckForever(item, raw, Running(pos, items), n);
    } else {
      var (t, advance) := item(here).value;
      var state := Passes(item, raw, Running(pos + advance, items + [t]), n - 1);
      LoopOutcome(item, raw, pos + advance, items + [t], n - 1);
      FromFrom(raw, pos, advance);
      var rest := ParseList(item, From(raw, pos + advance));
      AgreesStep(rest, items, t, state, n - 1 > |From(raw, pos + advance)|);
      AgreesLess(Prepend([t], rest), items, state, n - 1 > |From(raw, pos + advance)|, n > |here|);
    }
  }

  /** Every item that the loop reaches moves it forward. */
  predicate AlwaysAdvances<T>(item: ItemParser<T>, raw: Bytes)
    decreases |raw|
  {
    raw != [] && item(raw).Ok? ==>
      item(raw).value.1 != 0 && AlwaysAdvances(item, From(raw, item(raw).value.1))
  }

  lemma {:induction false} DivergesIffStuck<T>(item: ItemParser<T>, raw: Bytes)
    requires forall b :: item(b) != Err(Diverges)
    ensures ParseList(item, raw) == Err(Diverges) <==> !AlwaysAdvances(item, raw)
    decreases |raw|
  {
    if raw != [] && item(raw).Ok? && item(raw).value.1 != 0 {
      DivergesIffStuck(item, From(raw, item(raw).value.1));
    }
  }

  predicate EndsWithin<T>(item: ItemParser<T>, raw: Bytes, passes: nat) {
    !Passes(item, raw, Running(0, []), passes).Running?
  }

  ghost predicate LoopEnds<T>(item: ItemParser<T>, raw: Bytes) {
    exists n: nat :: EndsWithin(item, raw, n)
  }

  /** The loop ends, by returning or by raising, exactly when every item it reaches advances. */
  lemma TerminatesIffAlwaysAdvances<T>(item: ItemParser<T>, raw: Bytes)
    requires forall b :: item(b) != Err(Diverges)
    ensures AlwaysAdvances(item, raw) <==> LoopEnds(item, raw)
    ensures ParseList(item, raw) == Err(Diverges) <==> !LoopEnds(item, raw)
  {
    assert From(raw, 0) == raw;
    DivergesIffStuck(item, raw);
    if AlwaysAdvances(item, raw) {
      LoopOutcome(item, raw, 0, [], |raw| + 1);
      assert EndsWithin(item, raw, |raw| + 1);
    } else {
      forall n: nat
        ensures !EndsWithin(item, raw, n)
      {
        LoopOutcome(item, raw, 0, [], n);
      }
    }
  }

  // ---------------------------------------------------------------- round trip

  /** The serialised items, one after the other. */
  function Concat(parts: seq<Bytes>): Bytes {
    if parts == [] then [] else parts[0] + Concat(parts[1..])
  }

  /** parts[i] is the non-empty serialisation of items[i], and parses back whatever follows it. */
  ghost predicate ParsesBack<T(!new)>(item: ItemParser<T>, t: T, part: Bytes) {
    part != [] && forall tail: Bytes :: item(part + tail) == Ok((t, |part|))
  }

  lemma {:induction false} ListRoundTrip<T(!new)>(item: ItemParser<T>, items: seq<T>, parts: seq<Bytes>)
    requires |items| == |parts|
    requires forall i :: 0 <= i < |items| ==> ParsesBack(item, items[i], parts[i])
    ensures ParseList(item, Concat(parts)) == Ok(items)
  {
    if items != [] {
      ListRoundTrip(item, items[1..], parts[1..]);
      var tail := Concat(parts[1..]);
      assert ParsesBack(item, items[0], parts[0]);
      assert item(parts[0] + tail) == Ok((items[0], |parts[0]|));
      assert From(parts[0] + tail, |parts[0]|) == tail;
      assert items == [items[0]] + items[1..];
    }
  }

  /** An error behind items that parse is the error of the whole. */
  lemma {:induction false} ErrorBehind<T(!new)>(item: ItemParser<T>, items: seq<T>, parts: seq<Bytes>, bad: Bytes, e: Error)
    requires |items| == |parts|
    requires forall i :: 0 <= i < |items| ==> ParsesBack(item, items[i], parts[i])
    requires ParseList(item, bad) == Err(e)
    ensures ParseList(item, Concat(parts) + bad) == Err(e)
  {
    if items == [] {
      assert Concat(parts) + bad == bad;
    } else {
      ErrorBehind(item, items[1..], parts[1..], bad, e);
      var tail := Concat(parts[1..]) + bad;
      assert ParsesBack(item, items[0], parts[0]);
      assert Concat(parts) + bad == parts[0] + tail;
      assert From(parts[0] + tail, |parts[0]|) == tail;
    }
  }
}
