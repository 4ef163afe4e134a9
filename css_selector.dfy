/**
 * The selector builder object: six fields updated in place by chained
 * mutator calls, each proved to behave as `SelectorParts.Apply` says,
 * and the immutable result of combining two selectors.
 */
module CssSelectors {
  import opened SelectorParts

  class CssSelector {
    var element: Option<string>
    var id: Option<string>
    var classes: seq<string>
    var attrs: seq<string>
    var pseudoClasses: seq<string>
    var pseudoElement: Option<string>

    /** The six fields as one value. */
    function State(): Parts
      reads this
    {
      Parts(element, id, classes, attrs, pseudoClasses, pseudoElement)
    }

    constructor ()
      ensures State() == Empty()
    {
      element, id, pseudoElement := None, None, None;
      classes, attrs, pseudoClasses := [], [], [];
    }

    /** The order check: fails if any slot of rank `from` or later is defined. */
    method CheckIsNotSetted(from: nat) returns (r: Outcome)
      requires from <= SlotCount
      ensures r == (if AnySetFrom(State(), from) then Fail(Order) else Pass)
    {
      var k := from;
      while k < SlotCount
        invariant from <= k <= SlotCount
        invariant forall j :: from <= j < k ==> !IsSet(State(), j)
      {
        if IsSet(State(), k) {
          return Fail(Order);
        }
        k := k + 1;
      }
      return Pass;
    }

    method Element(value: string) returns (r: Outcome)
      modifies this
      ensures r == Status(Apply(old(State()), SetElement(value)))
      ensures State() == After(old(State()), SetElement(value))
      ensures r.Fail? ==> State() == old(State())
    {
      if Truthy(element) {
        return Fail(Duplicate);
      }
      r := CheckIsNotSetted(1);
      if r.Fail? {
        return;
      }
      element := Some(value);
    }

    method Id(value: string) returns (r: Outcome)
      modifies this
      ensures r == Status(Apply(old(State()), SetId(value)))
      ensures State() == After(old(State()), SetId(value))
      ensures r.Fail? ==> State() == old(State())
    {
      if Truthy(id) {
        return Fail(Duplicate);
      }
      r := CheckIsNotSetted(2);
      if r.Fail? {
        return;
      }
      id := Some(value);
    }

    method Class(value: string) returns (r: Outcome)
      modifies this
      ensures r == Status(Apply(old(State()), AddClass(value)))
      ensures State() == After(old(State()), AddClass(value))
      ensures r.Fail? ==> State() == old(State())
    {
      r := CheckIsNotSetted(3);
      if r.Fail? {
        return;
      }
      classes := classes + [value];
    }

    method Attr(value: string) returns (r: Outcome)
      modifies this
      ensures r == Status(Apply(old(State()), AddAttr(value)))
      ensures State() == After(old(State()), AddAttr(value))
      ensures r.Fail? ==> State() == old(State())
    {
      r := CheckIsNotSetted(4);
      if r.Fail? {
        return;
      }
      attrs := attrs + [value];
    }

    method PseudoClass(value: string) returns (r: Outcome)
      modifies this
      ensures r == Status(Apply(old(State()), AddPseudoClass(value)))
      ensures State() == After(old(State()), AddPseudoClass(value))
      ensures r.Fail? ==> State() == old(State())
    {
      r := CheckIsNotSetted(5);
      if r.Fail? {
        return;
      }
      pseudoClasses := pseudoClasses + [value];
    }

    method PseudoElement(value: string) returns (r: Outcome)
      modifies this
      ensures r == Status(Apply(old(State()), SetPseudoElement(value)))
      ensures State() == After(old(State()), SetPseudoElement(value))
      ensures r.Fail? ==> State() == old(State())
    {
      if Truthy(pseudoElement) {
        return Fail(Duplicate);
      }
      pseudoElement := Some(value);
      r := Pass;
    }

    /** Reads the six fields and changes none of them. */
    function Stringify(): (s: string)
      reads this
      ensures s == Render(State())
    {
      Render(State())
    }
  }

  /** The result of `combine`: a fixed string, rendered as is. */
  datatype CombinedSelector = CombinedSelector(selector: string) {
    function Stringify(): (s: string)
      ensures s == selector
    {
      selector
    }
  }

  /** Anything `combine` accepts: a builder or an earlier combination. */
  datatype Operand = Simple(builder: CssSelector) | Compound(combined: CombinedSelector) {
    function Footprint(): set<object> {
      if Simple? then {builder} else {}
    }

    function Text(): string
      reads Footprint()
    {
      match this
      case Simple(b) => b.Stringify()
      case Compound(c) => c.Stringify()
    }
  }

  /**
   * Renders both operands and joins them around the combinator with one
   * space on each side.
   */
  function Combine(left: Operand, combinator: string, right: Operand): (r: CombinedSelector)
    reads left.Footprint(), right.Footprint()
    ensures |r.Stringify()| == |left.Text()| + |combinator| + |right.Text()| + 2
    ensures r.Stringify()[..|left.Text()|] == left.Text()
    ensures r.Stringify()[|left.Text()|] == ' '
    ensures r.Stringify()[|left.Text()| + 1..|left.Text()| + 1 + |combinator|] == combinator
    ensures r.Stringify()[|left.Text()| + 1 + |combinator|] == ' '
    ensures r.Stringify()[|left.Text()| + |combinator| + 2..] == right.Text()
  {
    CombinedSelector(left.Text() + " " + combinator + " " + right.Text())
  }
}
