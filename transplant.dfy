/** `replaceAndAppendDocument`: substitutes the merge data into a copy of the
    active (template) document's body, then re-creates each top-level element
    of that copy at the end of the target document, dispatching on its type. */
module Transplant {
  import opened Seqs
  import opened DocumentService

  /** Element types with a matching `append` call on a body. */
  predicate Supported(e: Element)
  {
    !e.kind.Other?
  }

  predicate Unsupported(e: Element)
  {
    e.kind.Other?
  }

  /** The elements of `children` that are appended to the target, in order. */
  function Transplanted(children: seq<Element>): seq<Element>
  {
    Filter(children, Supported)
  }

  function KindsOf(s: seq<Element>): (kinds: seq<ElementType>)
    ensures |kinds| == |s|
    ensures forall i :: 0 <= i < |s| ==> kinds[i] == s[i].kind
  {
    seq(|s|, i requires 0 <= i < |s| => s[i].kind)
  }

  /** The element types reported as unknown, in order. */
  function Skipped(children: seq<Element>): seq<ElementType>
  {
    KindsOf(Filter(children, Unsupported))
  }

  /** The body after `replaceText` was applied for each (field code, value)
      pair of the merge data, in enumeration order; empty merge data leaves
      the copy as it was. */
  function Substituted(children: seq<Element>, mergeData: seq<(string, string)>, rewrite: TextRewrite): seq<Element>
  {
    if mergeData == [] then children
    else
      var last := mergeData[|mergeData| - 1];
      rewrite(Substituted(children, mergeData[..|mergeData| - 1], rewrite), last.0, last.1)
  }

  /** Substituting two batches of merge data one after the other is the same
      as substituting their concatenation. */
  lemma {:induction false} SubstitutedAppend(children: seq<Element>, first: seq<(string, string)>,
                                             second: seq<(string, string)>, rewrite: TextRewrite)
    ensures Substituted(children, first + second, rewrite)
         == Substituted(Substituted(children, first, rewrite), second, rewrite)
  {
    if second == [] {
      assert first + second == first;
    } else {
      var both := first + second;
      assert both[..|both| - 1] == first + second[..|second| - 1];
      assert both[|both| - 1] == second[|second| - 1];
      SubstitutedAppend(children, first, second[..|second| - 1], rewrite);
    }
  }

  /** A body of known element types is transplanted whole and in order. */
  lemma TransplantedAllKnown(children: seq<Element>)
    requires forall i :: 0 <= i < |children| ==> Supported(children[i])
    ensures Transplanted(children) == children
    ensures Skipped(children) == []
  {
    FilterAll(children, Supported);
    FilterEmpty(children, Unsupported);
  }

  /** One element of an unknown type among known ones is the only one left
      out; the others keep their order. */
  lemma TransplantedSkipsUnknown(before: seq<Element>, unknown: Element, after: seq<Element>)
    requires forall i :: 0 <= i < |before| ==> Supported(before[i])
    requires Unsupported(unknown)
    requires forall i :: 0 <= i < |after| ==> Supported(after[i])
    ensures Transplanted(before + [unknown] + after) == before + after
    ensures Skipped(before + [unknown] + after) == [unknown.kind]
  {
    FilterAppend(before + [unknown], after, Supported);
    FilterAppend(before, [unknown], Supported);
    FilterAll(before, Supported);
    FilterAll(after, Supported);
    FilterAppend(before + [unknown], after, Unsupported);
    FilterAppend(before, [unknown], Unsupported);
    FilterEmpty(before, Unsupported);
    FilterEmpty(after, Unsupported);
  }

  /** Every top-level element is either appended or reported, never both. */
  lemma TransplantedCount(children: seq<Element>)
    ensures |Transplanted(children)| + |Skipped(children)| == |children|
  {
    FilterPartition(children, Supported, Unsupported);
  }

  /** What is appended is exactly the supported elements, in body order and
      as often as each occurs in the body. */
  lemma TransplantedOrder(children: seq<Element>)
    ensures IsSubsequence(Transplanted(children), children)
    ensures forall e :: e in Transplanted(children) <==> e in children && Supported(e)
    ensures forall e ::
      multiset(Transplanted(children))[e] == (if Supported(e) then multiset(children)[e] else 0)
  {
    FilterIsSubsequence(children, Supported);
    forall e
      ensures e in Transplanted(children) <==> e in children && Supported(e)
      ensures multiset(Transplanted(children))[e] == if Supported(e) then multiset(children)[e] else 0
    {
      FilterMembership(children, Supported, e);
      FilterMultiplicity(children, Supported, e);
    }
  }

  /** One more child of the copy adds itself to the appended elements when
      its type is supported, and its type to the report otherwise. */
  lemma TransplantStep(children: seq<Element>, index: nat)
    requires index < |children|
    ensures Transplanted(children[..index + 1]) ==
      Transplanted(children[..index]) + (if Supported(children[index]) then [children[index]] else [])
    ensures Skipped(children[..index + 1]) ==
      Skipped(children[..index]) + (if Unsupported(children[index]) then [children[index].kind] else [])
  {
    var e := children[index];
    assert children[..index + 1] == children[..index] + [e];
    FilterAppend(children[..index], [e], Supported);
    FilterAppend(children[..index], [e], Unsupported);
    assert Filter([e], Supported) == if Supported(e) then [e] else [];
    assert Filter([e], Unsupported) == if Unsupported(e) then [e] else [];
  }

  /** `replaceAndAppendDocument`: returns the types logged as unknown. The
      template body is only copied; the target keeps its content and gains
      the supported elements of the substituted copy; it is saved and closed
      once at the end. */
  method ReplaceAndAppendDocument(targetDocument: Document, activeDocument: Document,
                                  mergeData: seq<(string, string)>, rewrite: TextRewrite)
    returns (skipped: seq<ElementType>)
    modifies targetDocument, targetDocument.body
    ensures targetDocument.body.children ==
      old(targetDocument.body.children) + Transplanted(Substituted(old(activeDocument.body.children), mergeData, rewrite))
    ensures skipped == Skipped(Substituted(old(activeDocument.body.children), mergeData, rewrite))
    ensures activeDocument.body != targetDocument.body ==>
      activeDocument.body.children == old(activeDocument.body.children)
    ensures targetDocument.saved == targetDocument.body.children
    ensures targetDocument.closed && targetDocument.saveCount == old(targetDocument.saveCount) + 1
  {
    var targetDocumentBody := targetDocument.body;
    var templateDocumentBodyCopy := activeDocument.body.Copy();
    ghost var template := old(activeDocument.body.children);

    for i := 0 to |mergeData|
      invariant templateDocumentBodyCopy.children == Substituted(template, mergeData[..i], rewrite)
      invariant targetDocumentBody.children == old(targetDocumentBody.children)
      invariant activeDocument.body.children == template
      invariant targetDocument.saveCount == old(targetDocument.saveCount)
    {
      var (fieldCode, replaceText) := mergeData[i];
      assert mergeData[..i + 1][..i] == mergeData[..i];
      templateDocumentBodyCopy.ReplaceText(fieldCode, replaceText, rewrite);
    }
    assert mergeData[..|mergeData|] == mergeData;

    ghost var copied := templateDocumentBodyCopy.children;
    skipped := [];
    var numChildren := templateDocumentBodyCopy.NumChildren();
    for index := 0 to numChildren
      invariant templateDocumentBodyCopy.children == copied
      invariant targetDocumentBody.children == old(targetDocumentBody.children) + Transplanted(copied[..index])
      invariant skipped == Skipped(copied[..index])
      invariant targetDocument.saveCount == old(targetDocument.saveCount)
    {
      var childElement := templateDocumentBodyCopy.Child(index);
      TransplantStep(copied, index);
      ghost var appended := targetDocumentBody.children;
      match childElement.kind
      case HorizontalRule =>
        targetDocumentBody.AppendHorizontalRule(childElement);
      case InlineImage =>
        targetDocumentBody.AppendImage(childElement);
      case ListItem =>
        targetDocumentBody.AppendListItem(childElement);
      case PageBreak =>
        targetDocumentBody.AppendPageBreak(childElement);
      case Paragraph =>
        targetDocumentBody.AppendParagraph(childElement);
      case Table =>
        targetDocumentBody.AppendTable(childElement);
      case Other(_) =>
        skipped := skipped + [childElement.kind];
      assert targetDocumentBody.children ==
        appended + (if Supported(childElement) then [childElement] else []);
    }
    assert copied[..numChildren] == copied;

    targetDocument.SaveAndClose();
  }
}
