/**
 * Properties of the selector model: what one call does, which chains of
 * calls succeed, and what the rendering of a built selector is.
 */
module SelectorLaws {
  import opened SelectorParts

  /** The six slots determine the state: `Apply`'s contract fixes its result. */
  lemma SlotsDetermineParts(p: Parts, q: Parts)
    requires forall k: nat :: k < SlotCount ==> Slot(p, k) == Slot(q, k)
    ensures p == q
  {
    assert Slot(p, 0) == Slot(q, 0) && Slot(p, 1) == Slot(q, 1) && Slot(p, 5) == Slot(q, 5);
    assert Slot(p, 2) == Slot(q, 2) && Slot(p, 3) == Slot(q, 3) && Slot(p, 4) == Slot(q, 4);
    AsSeqInjective(p.element, q.element);
    AsSeqInjective(p.id, q.id);
    AsSeqInjective(p.pseudoElement, q.pseudoElement);
  }

  lemma AsSeqInjective(a: Option<string>, b: Option<string>)
    requires AsSeq(a) == AsSeq(b)
    ensures a == b
  {
    if a.Some? {
      assert AsSeq(b)[0] == a.value;
    }
  }

  /** The pseudo-element is last in the order: setting it fails only as a duplicate. */
  lemma PseudoElementNeverOutOfOrder(p: Parts, v: string)
    ensures Apply(p, SetPseudoElement(v)) != Err(Order)
    ensures Apply(p, SetPseudoElement(v)).Err? <==> Truthy(p.pseudoElement)
  {
  }

  /** Every slot defined before a successful call is still defined after it. */
  lemma ApplyOnlyAdds(p: Parts, c: Call, k: nat)
    requires Apply(p, c).Ok?
    ensures IsSet(p, k) ==> IsSet(Apply(p, c).value, k)
    ensures IsSet(Apply(p, c).value, c.Rank())
  {
    if k != c.Rank() && k < SlotCount {
      assert Slot(Apply(p, c).value, k) == Slot(p, k);
    }
  }

  lemma {:induction false} WrapSnoc(open: string, close: string, xs: seq<string>, x: string)
    ensures Wrap(open, close, xs + [x]) == Wrap(open, close, xs) + open + x + close
  {
    if xs == [] {
      assert [x][1..] == [];
    } else {
      assert (xs + [x])[1..] == xs[1..] + [x];
      WrapSnoc(open, close, xs[1..], x);
    }
  }

  /**
   * Rendering follows the call order: an accepted call appends exactly its
   * own fragment to what `stringify` returned before it.
   */
  lemma RenderAfter(p: Parts, c: Call)
    requires Apply(p, c).Ok?
    ensures Render(Apply(p, c).value) == Render(p) + Fragment(c)
  {
    match c
    case SetElement(v) => RenderAfterLead(p, c);
    case SetId(v) => RenderAfterLead(p, c);
    case AddClass(v) => RenderAfterClass(p, v);
    case AddAttr(v) => RenderAfterAttr(p, v);
    case AddPseudoClass(v) => RenderAfterPseudoClass(p, v);
    case SetPseudoElement(v) => RenderSetPseudoElement(p, v);
  }

  /** The `RenderAfter` property for a class call. */
  lemma RenderAfterClass(p: Parts, v: string)
    requires Apply(p, AddClass(v)).Ok?
    ensures Render(Apply(p, AddClass(v)).value) == Render(p) + Fragment(AddClass(v))
  {
    assert !IsSet(p, 3) && !IsSet(p, 4) && !IsSet(p, 5);
    assert Apply(p, AddClass(v)).value == p.(classes := p.classes + [v]);
    RenderAddClass(p, v);
  }

  /** The `RenderAfter` property for an attribute call. */
  lemma RenderAfterAttr(p: Parts, v: string)
    requires Apply(p, AddAttr(v)).Ok?
    ensures Render(Apply(p, AddAttr(v)).value) == Render(p) + Fragment(AddAttr(v))
  {
    assert !IsSet(p, 4) && !IsSet(p, 5);
    assert Apply(p, AddAttr(v)).value == p.(attrs := p.attrs + [v]);
    RenderAddAttr(p, v);
  }

  /** The `RenderAfter` property for a pseudo-class call. */
  lemma RenderAfterPseudoClass(p: Parts, v: string)
    requires Apply(p, AddPseudoClass(v)).Ok?
    ensures Render(Apply(p, AddPseudoClass(v)).value) == Render(p) + Fragment(AddPseudoClass(v))
  {
    assert !IsSet(p, 5);
    assert Apply(p, AddPseudoClass(v)).value == p.(pseudoClasses := p.pseudoClasses + [v]);
    RenderAddPseudoClass(p, v);
  }

  lemma RenderSetPseudoElement(p: Parts, v: string)
    requires !Truthy(p.pseudoElement)
    ensures Render(p.(pseudoElement := Some(v))) == Render(p) + Fragment(SetPseudoElement(v))
  {
    var q := p.(pseudoElement := Some(v));
    var body := Lead(p) + Wrap(".", "", p.classes) + Wrap("[", "]", p.attrs) + Wrap(":", "", p.pseudoClasses);
    var tail := Fragment(SetPseudoElement(v));
    assert Trailer(q) == tail;
    assert Render(p) == body by {
      assert Trailer(p) == "";
      assert body + "" == body;
    }
    assert Render(q) == body + tail by {
      assert Lead(q) == Lead(p);
    }
  }

  lemma RenderAfterLead(p: Parts, c: Call)
    requires c.SetElement? || c.SetId?
    requires Apply(p, c).Ok?
    ensures Render(Apply(p, c).value) == Render(p) + Fragment(c)
  {
    assert !IsSet(p, 2) && !IsSet(p, 3) && !IsSet(p, 4) && !IsSet(p, 5);
    var q := Apply(p, c).value;
    RenderLeadOnly(p);
    RenderLeadOnly(q);
    if c.SetElement? {
      assert !IsSet(p, 1);
      assert q == p.(element := Some(c.value));
    } else {
      assert q == p.(id := Some(c.value));
    }
  }

  lemma RenderLeadOnly(p: Parts)
    requires p.classes == [] && p.attrs == [] && p.pseudoClasses == [] && p.pseudoElement == None
    ensures Render(p) == Lead(p)
  {
  }

  lemma RenderAddClass(p: Parts, v: string)
    requires p.attrs == [] && p.pseudoClasses == [] && p.pseudoElement == None
    ensures Render(p.(classes := p.classes + [v])) == Render(p) + "." + v
  {
    var q := p.(classes := p.classes + [v]);
    var lead, w := Lead(p), Wrap(".", "", p.classes);
    WrapSnoc(".", "", p.classes, v);
    assert Lead(q) == lead && Trailer(p) == "" && Trailer(q) == "";
    assert Wrap("[", "]", []) == "" && Wrap(":", "", []) == "";
    assert Render(p) == lead + w;
    assert Render(q) == lead + (w + "." + v + "");
    Assoc4(lead, w, ".", v);
  }

  lemma RenderAddAttr(p: Parts, v: string)
    requires p.pseudoClasses == [] && p.pseudoElement == None
    ensures Render(p.(attrs := p.attrs + [v])) == Render(p) + "[" + v + "]"
  {
    var q := p.(attrs := p.attrs + [v]);
    var lead, w := Lead(p) + Wrap(".", "", p.classes), Wrap("[", "]", p.attrs);
    WrapSnoc("[", "]", p.attrs, v);
    assert Trailer(p) == "" && Trailer(q) == "";
    assert Wrap(":", "", []) == "";
    assert Render(p) == lead + w;
    assert Render(q) == lead + (w + "[" + v + "]");
    Assoc5(lead, w, "[", v, "]");
  }

  lemma RenderAddPseudoClass(p: Parts, v: string)
    requires p.pseudoElement == None
    ensures Render(p.(pseudoClasses := p.pseudoClasses + [v])) == Render(p) + ":" + v
  {
    var q := p.(pseudoClasses := p.pseudoClasses + [v]);
    var lead := Lead(p) + Wrap(".", "", p.classes) + Wrap("[", "]", p.attrs);
    var w := Wrap(":", "", p.pseudoClasses);
    WrapSnoc(":", "", p.pseudoClasses, v);
    assert Trailer(p) == "" && Trailer(q) == "";
    assert Render(p) == lead + w;
    assert Render(q) == lead + (w + ":" + v + "");
    Assoc4(lead, w, ":", v);
  }

  lemma Assoc4(a: string, b: string, c: string, d: string)
    ensures a + (b + c + d + "") == a + b + c + d
  {
  }

  lemma Assoc5(a: string, b: string, c: string, d: string, e: string)
    ensures a + (b + c + d + e) == a + b + c + d + e
  {
  }

  /** A successful chain renders as its fragments, in call order, after what was there. */
  lemma {:induction false} RenderOfRun(p: Parts, calls: seq<Call>)
    requires Run(p, calls).Ok?
    ensures Render(Run(p, calls).value) == Render(p) + Fragments(calls)
    decreases |calls|
  {
    if calls != [] {
      var q := Apply(p, calls[0]).value;
      RenderAfter(p, calls[0]);
      RenderOfRun(q, calls[1..]);
    }
  }

  lemma SameRankSameKind(a: Call, b: Call)
    ensures a.Rank() == b.Rank() ==> a.IsSingleton() == b.IsSingleton()
  {
  }

  /** `c` can be applied to `p` without error, and will find its slot free. */
  predicate Admits(p: Parts, c: Call) {
    !AnySetFrom(p, c.Rank() + 1) && (c.IsSingleton() ==> !IsSet(p, c.Rank()))
  }

  lemma {:induction false} RunSucceedsFrom(p: Parts, calls: seq<Call>)
    requires WellOrdered(calls)
    requires calls != [] ==> Admits(p, calls[0])
    ensures Run(p, calls).Ok?
    decreases |calls|
  {
    if calls != [] {
      var c := calls[0];
      var q := Apply(p, c).value;
      var rest := calls[1..];
      assert WellOrdered(rest) by {
        forall i, j | 0 <= i < j < |rest| ensures InOrder(rest[i], rest[j]) {
          assert InOrder(calls[i + 1], calls[j + 1]);
        }
      }
      if rest != [] {
        var d := rest[0];
        assert InOrder(c, d) by { assert InOrder(calls[0], calls[1]); }
        forall j: nat | d.Rank() + 1 <= j < SlotCount ensures !IsSet(q, j) {
          assert c.Rank() + 1 <= j && j != c.Rank();
          assert !IsSet(p, j);
          assert Slot(q, j) == Slot(p, j);
        }
        if d.IsSingleton() {
          SameRankSameKind(c, d);
          assert c.Rank() < d.Rank();
          assert !IsSet(p, d.Rank());
          assert Slot(q, d.Rank()) == Slot(p, d.Rank());
        }
      }
      RunSucceedsFrom(q, rest);
    }
  }

  /**
   * A chain that never goes back to an earlier part and sets each singleton
   * part at most once completes without error on a fresh builder.
   */
  lemma RunSucceeds(calls: seq<Call>)
    requires WellOrdered(calls)
    ensures Run(Empty(), calls).Ok?
  {
    RunSucceedsFrom(Empty(), calls);
  }

  /** No singleton slot holds the empty string, which the duplicate check would miss. */
  predicate NoEmptySingletons(p: Parts) {
    (p.element.Some? ==> p.element.value != "")
    && (p.id.Some? ==> p.id.value != "")
    && (p.pseudoElement.Some? ==> p.pseudoElement.value != "")
  }

  /** Every element, id and pseudo-element call of the chain has a non-empty value. */
  predicate NonEmptyValues(calls: seq<Call>) {
    forall i :: 0 <= i < |calls| && calls[i].IsSingleton() ==> calls[i].value != ""
  }

  /** Conversely, with non-empty values every call of a successful chain was admitted. */
  lemma {:induction false} RunOkIsWellOrdered(p: Parts, calls: seq<Call>)
    requires NoEmptySingletons(p) && NonEmptyValues(calls)
    requires Run(p, calls).Ok?
    ensures WellOrdered(calls)
    ensures forall j :: 0 <= j < |calls| ==> Admits(p, calls[j])
    decreases |calls|
  {
    if calls != [] {
      var c := calls[0];
      var q := Apply(p, c).value;
      var rest := calls[1..];
      assert c.IsSingleton() ==> c.value != "";
      assert NoEmptySingletons(q);
      assert NonEmptyValues(rest) by {
        forall i | 0 <= i < |rest| && rest[i].IsSingleton() ensures rest[i].value != "" {
          assert rest[i] == calls[i + 1];
        }
      }
      RunOkIsWellOrdered(q, rest);
      assert Admits(p, c);
      forall j | 0 <= j < |rest| ensures Admits(p, rest[j]) && InOrder(c, rest[j]) {
        var d := rest[j];
        assert Admits(q, d);
        forall k: nat | d.Rank() + 1 <= k < SlotCount ensures !IsSet(p, k) {
          if IsSet(p, k) {
            ApplyOnlyAdds(p, c, k);
          }
        }
        ApplyOnlyAdds(p, c, d.Rank());
        ApplyOnlyAdds(p, c, c.Rank());
        SameRankSameKind(c, d);
      }
      forall i, j | 0 <= i < j < |calls| ensures InOrder(calls[i], calls[j]) {
        if i > 0 {
          assert calls[i] == rest[i - 1] && calls[j] == rest[j - 1];
        } else {
          assert calls[j] == rest[j - 1];
        }
      }
    }
  }

  /**
   * Once a chain has set a singleton part to a non-empty value, a later call
   * to that part raises the duplicate error, whatever else the chain did.
   */
  lemma {:induction false} RepeatedSingletonIsDuplicate(p: Parts, pre: seq<Call>, i: nat, c: Call)
    requires i < |pre| && pre[i].IsSingleton() && pre[i].value != ""
    requires pre[i].Rank() == c.Rank()
    requires Run(p, pre).Ok?
    ensures Apply(Run(p, pre).value, c) == Err(Duplicate)
    decreases |pre|
  {
    var q := Apply(p, pre[0]).value;
    if i == 0 {
      var k := c.Rank();
      assert Slot(q, k) == [pre[0].value];
      assert SingletonAt(q, k) == Some(pre[0].value) by {
        assert k == 0 || k == 1 || k == 5;
        AsSeqInjective(SingletonAt(q, k), Some(pre[0].value));
      }
      assert IsTruthy(q, k);
      SameRankSameKind(pre[0], c);
    } else {
      RepeatedSingletonIsDuplicate(q, pre[1..], i - 1, c);
    }
  }

  /**
   * With non-empty arguments, a chain on a fresh builder succeeds exactly
   * when it respects the part order and sets each singleton part at most once.
   */
  lemma RunSucceedsIff(calls: seq<Call>)
    requires NonEmptyValues(calls)
    ensures Run(Empty(), calls).Ok? <==> WellOrdered(calls)
  {
    if Run(Empty(), calls).Ok? {
      RunOkIsWellOrdered(Empty(), calls);
    }
    if WellOrdered(calls) {
      RunSucceeds(calls);
    }
  }

  /**
   * The two checks disagree on the empty string: an empty element does not
   * count as set for the duplicate check, an empty id does for the order check.
   */
  lemma EmptyStringQuirk()
    ensures Run(Empty(), [SetElement(""), SetElement("a")]).Ok?
    ensures Run(Empty(), [SetId(""), SetElement("a")]) == Err(Order)
  {
    assert IsSet(Parts(None, Some(""), [], [], [], None), 1);
  }
}
