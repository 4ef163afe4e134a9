/**
 * The `cssSelectorBuilder` facade: each entry point creates a fresh
 * selector and makes one call on it; `combine` is `CssSelectors.Combine`.
 */
module CssSelectorBuilder {
  import opened SelectorParts
  import opened CssSelectors

  /** A fresh builder that has accepted one call: a first call never throws. */
  method Start(c: Call) returns (s: CssSelector)
    ensures fresh(s)
    ensures Apply(Empty(), c).Ok? && s.State() == Apply(Empty(), c).value
  {
    s := new CssSelector();
    var r: Outcome;
    match c
    case SetElement(v) => r := s.Element(v);
    case SetId(v) => r := s.Id(v);
    case AddClass(v) => r := s.Class(v);
    case AddAttr(v) => r := s.Attr(v);
    case AddPseudoClass(v) => r := s.PseudoClass(v);
    case SetPseudoElement(v) => r := s.PseudoElement(v);
  }

  method Element(value: string) returns (s: CssSelector)
    ensures fresh(s) && s.State() == Empty().(element := Some(value))
  {
    s := Start(SetElement(value));
  }

  method Id(value: string) returns (s: CssSelector)
    ensures fresh(s) && s.State() == Empty().(id := Some(value))
  {
    s := Start(SetId(value));
  }

  method Class(value: string) returns (s: CssSelector)
    ensures fresh(s) && s.State() == Empty().(classes := [value])
  {
    s := Start(AddClass(value));
  }

  method Attr(value: string) returns (s: CssSelector)
    ensures fresh(s) && s.State() == Empty().(attrs := [value])
  {
    s := Start(AddAttr(value));
  }

  method PseudoClass(value: string) returns (s: CssSelector)
    ensures fresh(s) && s.State() == Empty().(pseudoClasses := [value])
  {
    s := Start(AddPseudoClass(value));
  }

  method PseudoElement(value: string) returns (s: CssSelector)
    ensures fresh(s) && s.State() == Empty().(pseudoElement := Some(value))
  {
    s := Start(SetPseudoElement(value));
  }

  /** Combining is plain concatenation, so nested combinations flatten. */
  lemma NestedCombine(a: Operand, c1: string, b: Operand, c2: string, d: Operand)
    ensures Combine(a, c1, Compound(Combine(b, c2, d))).Stringify()
            == a.Text() + " " + c1 + " " + b.Text() + " " + c2 + " " + d.Text()
  {
    var inner := Combine(b, c2, d);
    assert Compound(inner).Text() == b.Text() + " " + c2 + " " + d.Text();
    JoinFlattens(a.Text(), c1, b.Text(), c2, d.Text());
  }

  /** Nesting on the left or on the right gives the same combined selector. */
  lemma CombineAssociative(a: Operand, c1: string, b: Operand, c2: string, d: Operand)
    ensures Combine(a, c1, Compound(Combine(b, c2, d)))
            == Combine(Compound(Combine(a, c1, b)), c2, d)
  {
    NestedCombine(a, c1, b, c2, d);
    var outer := Combine(a, c1, b);
    assert Compound(outer).Text() == a.Text() + " " + c1 + " " + b.Text();
  }

  lemma JoinFlattens(x: string, c1: string, y: string, c2: string, z: string)
    ensures x + " " + c1 + " " + (y + " " + c2 + " " + z) == x + " " + c1 + " " + y + " " + c2 + " " + z
  {
  }

  /** `id('main').class('container').class('editable')` renders `#main.container.editable`. */
  method IdClassScenario()
  {
    var s := Id("main");
    var r := s.Class("container");
    assert s.State() == Parts(None, Some("main"), ["container"], [], [], None);
    r := s.Class("editable");
    assert s.State() == Parts(None, Some("main"), ["container", "editable"], [], [], None);
    IdClassScenarioRender();
  }

  lemma IdClassScenarioRender()
    ensures Render(Parts(None, Some("main"), ["container", "editable"], [], [], None)) == "#main.container.editable"
  {
    var p := Parts(None, Some("main"), ["container", "editable"], [], [], None);
    assert Lead(p) == "#main" && Trailer(p) == "" && Wrap("[", "]", []) == "" && Wrap(":", "", []) == "";
    assert Wrap(".", "", ["editable"]) == ".editable";
    assert Wrap(".", "", ["container", "editable"]) == ".container" + ".editable";
    assert Render(p) == "#main" + ".container" + ".editable" + "" + "" + "";
  }

  /** `element('a').attr('href$=".png"').pseudoClass('focus')` renders `a[href$=".png"]:focus`. */
  method AttrScenario()
  {
    var t := Element("a");
    var r := t.Attr("href$=\".png\"");
    assert t.State() == Parts(Some("a"), None, [], ["href$=\".png\""], [], None);
    r := t.PseudoClass("focus");
    assert t.State() == Parts(Some("a"), None, [], ["href$=\".png\""], ["focus"], None);
    AttrScenarioRender();
  }

  lemma AttrScenarioRender()
    ensures Render(Parts(Some("a"), None, [], ["href$=\".png\""], ["focus"], None)) == "a[href$=\".png\"]:focus"
  {
    var p := Parts(Some("a"), None, [], ["href$=\".png\""], ["focus"], None);
    assert Lead(p) == "a" && Trailer(p) == "" && Wrap(".", "", []) == "";
    assert Wrap("[", "]", ["href$=\".png\""]) == "[href$=\".png\"]";
    assert Wrap(":", "", ["focus"]) == ":focus";
    assert Render(p) == "a" + "" + "[href$=\".png\"]" + ":focus" + "";
  }

  /**
   * A second element is a duplicate even after later parts, since the duplicate
   * check runs first; an element after a class is out of order.
   */
  method ErrorScenarios()
  {
    var u := Element("div");
    var r := u.Id("main");
    r := u.Class("container");
    r := u.Class("draggable");
    assert IsSet(u.State(), 2) && Truthy(u.State().element);
    r := u.Element("span");
    assert r == Fail(Duplicate);

    var v := Class("a");
    assert IsSet(v.State(), 2);
    r := v.Element("div");
    assert r == Fail(Order);
  }
}
