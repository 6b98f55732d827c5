/** The part of the Document host service the transplant uses: a body as a
    sequence of top-level elements, the per-type append calls, `copy`,
    `replaceText` and `saveAndClose`. */
module DocumentService {

  /** The structural type of a top-level element. `Other` stands for every
      type the transplant does not handle and keeps its name for the log. */
  datatype ElementType =
    | HorizontalRule
    | InlineImage
    | ListItem
    | PageBreak
    | Paragraph
    | Table
    | Other(name: string)

  /** A top-level element: its type and its content and formatting, which
      the model carries along without looking inside. */
  datatype Element = Element(kind: ElementType, content: string)

  /** The host's `replaceText(pattern, replacement)` on a whole body; how it
      interprets the pattern is not modelled. */
  type TextRewrite = (seq<Element>, string, string) -> seq<Element>

  class Body {
    var children: seq<Element>

    constructor (children: seq<Element>)
      ensures this.children == children
    {
      this.children := children;
    }

    function NumChildren(): (n: nat)
      reads this
      ensures n == |children|
    {
      |children|
    }

    function Child(index: nat): (e: Element)
      requires index < |children|
      reads this
      ensures e == children[index] && e in children
    {
      children[index]
    }

    /** A detached deep copy: later edits of either body leave the other alone. */
    method Copy() returns (b: Body)
      ensures fresh(b) && b.children == children
    {
      b := new Body(children);
    }

    method ReplaceText(searchPattern: string, replacement: string, rewrite: TextRewrite)
      modifies this
      ensures children == rewrite(old(children), searchPattern, replacement)
    {
      children := rewrite(children, searchPattern, replacement);
    }

    method AppendHorizontalRule(e: Element)
      requires e.kind == HorizontalRule
      modifies this
      ensures children == old(children) + [e]
    {
      children := children + [e];
    }

    method AppendImage(e: Element)
      requires e.kind == InlineImage
      modifies this
      ensures children == old(children) + [e]
    {
      children := children + [e];
    }

    method AppendListItem(e: Element)
      requires e.kind == ListItem
      modifies this
      ensures children == old(children) + [e]
    {
      children := children + [e];
    }

    method AppendPageBreak(e: Element)
      requires e.kind == PageBreak
      modifies this
      ensures children == old(children) + [e]
    {
      children := children + [e];
    }

    method AppendParagraph(e: Element)
      requires e.kind == Paragraph
      modifies this
      ensures children == old(children) + [e]
    {
      children := children + [e];
    }

    method AppendTable(e: Element)
      requires e.kind == Table
      modifies this
      ensures children == old(children) + [e]
    {
      children := children + [e];
    }
  }

  /** An open document handle: its body, the children last written to the
      store, and how often it was saved and closed. */
  class Document {
    const body: Body
    var saved: seq<Element>
    var closed: bool
    var saveCount: nat

    /** A freshly opened document: what the store holds is what the body shows. */
    constructor (body: Body)
      ensures this.body == body && saved == body.children && !closed && saveCount == 0
    {
      this.body := body;
      saved := body.children;
      closed := false;
      saveCount := 0;
    }

    /** Writes the body's current children to the store and closes the handle. */
    method SaveAndClose()
      modifies this
      ensures saved == body.children
      ensures closed && saveCount == old(saveCount) + 1
    {
      saved := body.children;
      closed := true;
      saveCount := saveCount + 1;
    }
  }
}
