/**
 * The value-level model of one compound CSS selector under construction:
 * the six slots a builder accumulates, the effect of one mutator call on
 * them (`Apply`), a chain of calls (`Run`) and the rendering (`Render`).
 *
 * Slot ranks follow the fixed CSS part order
 *   0 element, 1 id, 2 class, 3 attribute, 4 pseudo-class, 5 pseudo-element.
 *
 * Two notions of "already set" are in play, exactly as in the builder:
 *  - the order check asks whether a slot is defined at all (`IsSet`);
 *  - the duplicate check and the renderer ask whether a singleton slot holds
 *    a truthy string, i.e. one that is present and non-empty (`Truthy`).
 */
module SelectorParts {

  datatype Option<T> = None | Some(value: T)

  /** The two errors a mutator can raise: "too many parts" and "wrong order". */
  datatype SelectorError = Duplicate | Order

  datatype Result<T> = Ok(value: T) | Err(error: SelectorError)

  /** What a mutator method reports: it returned the builder, or it threw. */
  datatype Outcome = Pass | Fail(error: SelectorError)

  /** One call of a builder mutator, with its argument. */
  datatype Call =
    | SetElement(value: string)
    | SetId(value: string)
    | AddClass(value: string)
    | AddAttr(value: string)
    | AddPseudoClass(value: string)
    | SetPseudoElement(value: string)
  {
    /** Position of the targeted slot in the fixed part order. */
    function Rank(): (k: nat)
      ensures k < SlotCount
    {
      match this
      case SetElement(_) => 0
      case SetId(_) => 1
      case AddClass(_) => 2
      case AddAttr(_) => 3
      case AddPseudoClass(_) => 4
      case SetPseudoElement(_) => 5
    }

    /** Element, id and pseudo-element hold one value; the others are lists. */
    predicate IsSingleton() {
      SetElement? || SetId? || SetPseudoElement?
    }
  }

  const SlotCount: nat := 6

  /**
   * The six slots. A list slot is empty exactly when the builder's field is
   * still undefined: the builder only ever creates it with one element.
   */
  datatype Parts = Parts(
    element: Option<string>,
    id: Option<string>,
    classes: seq<string>,
    attrs: seq<string>,
    pseudoClasses: seq<string>,
    pseudoElement: Option<string>)

  /** The state of a freshly created builder: every field undefined. */
  function Empty(): Parts {
    Parts(None, None, [], [], [], None)
  }

  function AsSeq(o: Option<string>): seq<string> {
    if o.Some? then [o.value] else []
  }

  /** The contents of slot `k`, uniformly as a sequence. */
  function Slot(p: Parts, k: nat): seq<string> {
    if k == 0 then AsSeq(p.element)
    else if k == 1 then AsSeq(p.id)
    else if k == 2 then p.classes
    else if k == 3 then p.attrs
    else if k == 4 then p.pseudoClasses
    else if k == 5 then AsSeq(p.pseudoElement)
    else []
  }

  /** Slot `k` is defined (`!== undefined`). */
  predicate IsSet(p: Parts, k: nat) {
    Slot(p, k) != []
  }

  /** A singleton slot judged the way the builder's `if (this._x)` judges it. */
  predicate Truthy(o: Option<string>) {
    o.Some? && o.value != ""
  }

  /** The singleton slot of rank `k` (element, id or pseudo-element), else `None`. */
  function SingletonAt(p: Parts, k: nat): Option<string> {
    if k == 0 then p.element
    else if k == 1 then p.id
    else if k == 5 then p.pseudoElement
    else None
  }

  /** Singleton slot `k` holds a value that `if (this._x)` accepts. */
  predicate IsTruthy(p: Parts, k: nat) {
    Truthy(SingletonAt(p, k))
  }

  /** Some slot of rank `from` or later is defined: the order check fails. */
  predicate AnySetFrom(p: Parts, from: nat) {
    exists j :: from <= j < SlotCount && IsSet(p, j)
  }

  /**
   * One mutator call on state `p`. The duplicate check comes first, then the
   * order check, and only then the write; an error writes nothing.
   */
  function Apply(p: Parts, c: Call): (r: Result<Parts>)
    ensures r == Err(Duplicate) <==> c.IsSingleton() && IsTruthy(p, c.Rank())
    ensures r == Err(Order) <==>
              !(c.IsSingleton() && IsTruthy(p, c.Rank())) && AnySetFrom(p, c.Rank() + 1)
    ensures r.Ok? ==>
              Slot(r.value, c.Rank()) ==
              (if c.IsSingleton() then [c.value] else Slot(p, c.Rank()) + [c.value])
    ensures r.Ok? ==> forall k: nat :: k < SlotCount && k != c.Rank() ==> Slot(r.value, k) == Slot(p, k)
  {
    match c
    case SetElement(v) =>
      if Truthy(p.element) then Err(Duplicate)
      else if AnySetFrom(p, 1) then Err(Order)
      else Ok(p.(element := Some(v)))
    case SetId(v) =>
      if Truthy(p.id) then Err(Duplicate)
      else if AnySetFrom(p, 2) then Err(Order)
      else Ok(p.(id := Some(v)))
    case AddClass(v) =>
      if AnySetFrom(p, 3) then Err(Order)
      else Ok(p.(classes := p.classes + [v]))
    case AddAttr(v) =>
      if AnySetFrom(p, 4) then Err(Order)
      else Ok(p.(attrs := p.attrs + [v]))
    case AddPseudoClass(v) =>
      if AnySetFrom(p, 5) then Err(Order)
      else Ok(p.(pseudoClasses := p.pseudoClasses + [v]))
    case SetPseudoElement(v) =>
      if Truthy(p.pseudoElement) then Err(Duplicate)
      else Ok(p.(pseudoElement := Some(v)))
  }

  /** The state after a call: the new state, or the old one if the call threw. */
  function After(p: Parts, c: Call): Parts {
    match Apply(p, c)
    case Ok(q) => q
    case Err(_) => p
  }

  function Status(r: Result<Parts>): Outcome {
    match r
    case Ok(_) => Pass
    case Err(e) => Fail(e)
  }

  /** A chain of calls on one builder; the first error aborts the chain. */
  function Run(p: Parts, calls: seq<Call>): (r: Result<Parts>)
    ensures calls == [] ==> r == Ok(p)
    ensures r.Ok? ==> forall k: nat :: IsSet(p, k) ==> IsSet(r.value, k)
    ensures r.Ok? ==> forall k: nat :: IsTruthy(p, k) ==> SingletonAt(r.value, k) == SingletonAt(p, k)
    ensures r.Err? ==> calls != []
    decreases |calls|
  {
    if calls == [] then Ok(p)
    else match Apply(p, calls[0])
      case Err(e) => Err(e)
      case Ok(q) => Run(q, calls[1..])
  }

  /** `xs.map(e => open + e + close).join('')`. */
  function Wrap(open: string, close: string, xs: seq<string>): string {
    if xs == [] then "" else open + xs[0] + close + Wrap(open, close, xs[1..])
  }

  /**
   * `stringify`: the slots in rank order with their prefixes; element, id and
   * pseudo-element only when truthy. It starts with a truthy element and ends
   * with `::` and a truthy pseudo-element; a fresh builder renders as "".
   */
  function Render(p: Parts): (r: string)
    ensures Truthy(p.element) ==> |p.element.value| <= |r| && r[..|p.element.value|] == p.element.value
    ensures Truthy(p.pseudoElement) ==>
              |p.pseudoElement.value| + 2 <= |r|
              && r[|r| - |p.pseudoElement.value| - 2..] == "::" + p.pseudoElement.value
    ensures p == Empty() ==> r == ""
  {
    Lead(p)
    + Wrap(".", "", p.classes)
    + Wrap("[", "]", p.attrs)
    + Wrap(":", "", p.pseudoClasses)
    + Trailer(p)
  }

  /** The element, then `#id`, each only if truthy. */
  function Lead(p: Parts): string {
    (if Truthy(p.element) then p.element.value else "")
    + (if Truthy(p.id) then "#" + p.id.value else "")
  }

  /** `::pseudoElement`, only if truthy. */
  function Trailer(p: Parts): string {
    if Truthy(p.pseudoElement) then "::" + p.pseudoElement.value else ""
  }

  /** The text one accepted call contributes to the rendering. */
  function Fragment(c: Call): string {
    match c
    case SetElement(v) => v
    case SetId(v) => if v == "" then "" else "#" + v
    case AddClass(v) => "." + v
    case AddAttr(v) => "[" + v + "]"
    case AddPseudoClass(v) => ":" + v
    case SetPseudoElement(v) => if v == "" then "" else "::" + v
  }

  /** The fragments of a chain of calls, in call order. */
  function Fragments(calls: seq<Call>): string {
    if calls == [] then "" else Fragment(calls[0]) + Fragments(calls[1..])
  }

  /**
   * `b` may follow `a` in a chain: a strictly later part, or another entry of
   * the same list part.
   */
  predicate InOrder(a: Call, b: Call) {
    a.Rank() < b.Rank() || (a.Rank() == b.Rank() && !a.IsSingleton())
  }

  /** Every call of the chain may follow every earlier one. */
  predicate WellOrdered(calls: seq<Call>) {
    forall i, j :: 0 <= i < j < |calls| ==> InOrder(calls[i], calls[j])
  }
}
