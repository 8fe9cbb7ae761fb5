/**
 * Plain text out of CMS rich-text JSON (src/lib/lexical.ts). A JSON value is
 * a datatype; an object is its list of members, and a property read returns
 * the last member with that key, as `JSON.parse` keeps the last duplicate.
 */
module Lexical {
  import opened Wrappers

  datatype Json =
    | JNull
    | JBool(b: bool)
    | JNum(n: int)
    | JStr(s: string)
    | JArr(items: seq<Json>)
    | JObj(members: seq<(string, Json)>)

  /** `obj[key]`, or None for `undefined`. */
  function Get(members: seq<(string, Json)>, key: string): (r: Option<Json>)
    ensures r.Some? ==> exists j :: 0 <= j < |members| && members[j] == (key, r.value)
    ensures r.None? ==> forall j :: 0 <= j < |members| ==> members[j].0 != key
  {
    if members == [] then None
    else if members[|members| - 1].0 == key then Some(members[|members| - 1].1)
    else Get(members[..|members| - 1], key)
  }

  /** A property value read out of an object is smaller than the object. */
  lemma GetIsSmaller(members: seq<(string, Json)>, key: string)
    requires Get(members, key).Some?
    ensures Get(members, key).value < JObj(members)
  {
    var j :| 0 <= j < |members| && members[j] == (key, Get(members, key).value);
    assert members[j] in members;
  }

  /** `typeof v === 'object' && v !== null`: objects and arrays. */
  predicate IsObject(v: Json) {
    v.JObj? || v.JArr?
  }

  /** The text a text node carries: its `text`, when `type` is 'text' and `text` a string. */
  function OwnText(members: seq<(string, Json)>): string {
    if Get(members, "type") == Some(JStr("text")) && Get(members, "text").Some? && Get(members, "text").value.JStr?
    then Get(members, "text").value.s
    else ""
  }

  /** What one child contributes: its own text, then the text of its `children` array. */
  function NodeText(node: Json): string
    decreases node, 1
  {
    match node
    case JObj(members) =>
      OwnText(members) +
      (match Get(members, "children")
       case Some(JArr(cs)) => GetIsSmaller(members, "children"); ChildrenText(cs)
       case _ => "")
    case _ => ""
  }

  /** The pre-order concatenation of the texts in a list of children. */
  function ChildrenText(children: seq<Json>): string
    decreases children, 0
  {
    if children == [] then ""
    else NodeText(children[0]) + ChildrenText(children[1..])
  }

  /** `extractTextFromLexical(value)`. */
  function ExtractTextFromLexical(value: Json): (text: string)
    ensures value.JStr? ==> text == value.s
    ensures !value.JStr? && !value.JObj? ==> text == ""
  {
    match value
    case JStr(s) => s
    case JObj(members) =>
      (match Get(members, "root")
       case Some(JObj(rootMembers)) =>
         (match Get(rootMembers, "children")
          case Some(JArr(cs)) => ChildrenText(cs)
          case _ => "")
       case _ => "")
    case _ => ""
  }

  /** `extractTextFromChildren(children)`: the loop that appends to `text`. */
  method ExtractTextFromChildren(children: seq<Json>) returns (text: string)
    ensures text == ChildrenText(children)
    decreases children, 0
  {
    text := "";
    for i := 0 to |children|
      invariant text == ChildrenText(children[..i])
    {
      assert children[i] in children;
      var piece := ChildContribution(children[i]);
      ChildrenTextAppend(children[..i], [children[i]]);
      assert children[..i + 1] == children[..i] + [children[i]];
      text := text + piece;
    }
    assert children[..|children|] == children;
  }

  /** One pass of that loop's body: what `child` appends to `text`. */
  method ChildContribution(child: Json) returns (piece: string)
    ensures piece == NodeText(child)
    decreases child, 1
  {
    piece := "";
    if !IsObject(child) {
      return;
    }
    if child.JObj? {
      var members := child.members;
      piece := OwnText(members);
      var kids := Get(members, "children");
      if kids.Some? && kids.value.JArr? {
        GetIsSmaller(members, "children");
        var sub := ExtractTextFromChildren(kids.value.items);
        piece := piece + sub;
      }
    }
  }

  // ----- properties -----

  /** Text extraction distributes over concatenation of child lists. */
  lemma {:induction false} ChildrenTextAppend(a: seq<Json>, b: seq<Json>)
    ensures ChildrenText(a + b) == ChildrenText(a) + ChildrenText(b)
  {
    if a == [] {
      assert a + b == b;
    } else {
      var head := NodeText(a[0]);
      assert (a + b)[0] == a[0];
      assert (a + b)[1..] == a[1..] + b;
      assert ChildrenText(a + b) == head + ChildrenText(a[1..] + b);
      ChildrenTextAppend(a[1..], b);
      assert ChildrenText(a) == head + ChildrenText(a[1..]);
    }
  }

  /** A node's own text precedes the text of its children. */
  lemma TextNodeBeforeChildren(t: string, cs: seq<Json>)
    ensures NodeText(JObj([("type", JStr("text")), ("text", JStr(t)), ("children", JArr(cs))]))
            == t + ChildrenText(cs)
  {
    var ms := [("type", JStr("text")), ("text", JStr(t)), ("children", JArr(cs))];
    assert ms[..2] == [("type", JStr("text")), ("text", JStr(t))];
    assert ms[..2][..1] == [("type", JStr("text"))];
    assert Get(ms, "children") == Some(JArr(cs));
    assert Get(ms, "text") == Get(ms[..2], "text") == Some(JStr(t));
    assert Get(ms, "type") == Get(ms[..2], "type") == Get(ms[..2][..1], "type") == Some(JStr("text"));
  }

  /** Children that are not objects contribute nothing. */
  lemma {:induction false} NonObjectChildrenSkipped(children: seq<Json>)
    ensures ChildrenText(children) == ChildrenText(ObjectsOnly(children))
  {
    if children != [] {
      NonObjectChildrenSkipped(children[1..]);
      if IsObject(children[0]) {
        assert ObjectsOnly(children) == [children[0]] + ObjectsOnly(children[1..]);
        ChildrenTextAppend([children[0]], ObjectsOnly(children[1..]));
      }
    }
  }

  /** The children that are objects or arrays, in order. */
  function ObjectsOnly(children: seq<Json>): (r: seq<Json>)
    ensures forall j :: 0 <= j < |r| ==> IsObject(r[j])
    ensures |r| <= |children|
  {
    if children == [] then []
    else if IsObject(children[0]) then [children[0]] + ObjectsOnly(children[1..])
    else ObjectsOnly(children[1..])
  }

  /** Without an array at `root.children` the result is empty. */
  lemma MissingRootChildrenIsEmpty(members: seq<(string, Json)>)
    requires match Get(members, "root")
             case Some(JObj(rm)) => !(Get(rm, "children").Some? && Get(rm, "children").value.JArr?)
             case _ => true
    ensures ExtractTextFromLexical(JObj(members)) == ""
  {
  }

  /** A plain text node contributes exactly its text. */
  lemma TextNode(t: string)
    ensures NodeText(TextLeaf(t)) == t
  {
    var ms := [("type", JStr("text")), ("text", JStr(t))];
    assert ms[..1] == [("type", JStr("text"))];
    assert Get(ms, "type") == Get(ms[..1], "type") == Some(JStr("text"));
    assert Get(ms, "text") == Some(JStr(t));
    assert Get(ms, "children") == None;
  }

  /** A root holding one paragraph of two text nodes yields their concatenation. */
  lemma ParagraphExample(a: string, b: string)
    ensures ExtractTextFromLexical(Document([Paragraph([TextLeaf(a), JNull, TextLeaf(b)])])) == a + b
  {
    var kids := [TextLeaf(a), JNull, TextLeaf(b)];
    LeafNullLeafText(a, b);
    ParagraphText(kids);
    assert ChildrenText([Paragraph(kids)]) == a + b;
    DocumentText([Paragraph(kids)]);
  }

  /** A text leaf, a null and a text leaf give the two texts in order. */
  lemma LeafNullLeafText(a: string, b: string)
    ensures ChildrenText([TextLeaf(a), JNull, TextLeaf(b)]) == a + b
  {
    var kids := [TextLeaf(a), JNull, TextLeaf(b)];
    TextNode(a);
    TextNode(b);
    var k1, k2 := kids[1..], kids[2..];
    assert k1 == [JNull, TextLeaf(b)] && k1[1..] == k2;
    assert k2 == [TextLeaf(b)] && k2[1..] == [];
    assert ChildrenText(k2) == b + ChildrenText([]);
    assert ChildrenText(k1) == NodeText(JNull) + ChildrenText(k2);
    assert ChildrenText(kids) == NodeText(TextLeaf(a)) + ChildrenText(k1);
  }

  function TextLeaf(t: string): Json {
    JObj([("type", JStr("text")), ("text", JStr(t))])
  }

  function Paragraph(cs: seq<Json>): Json {
    JObj([("type", JStr("paragraph")), ("children", JArr(cs))])
  }

  function Document(cs: seq<Json>): Json {
    JObj([("root", JObj([("children", JArr(cs))]))])
  }

  lemma ParagraphText(cs: seq<Json>)
    ensures NodeText(Paragraph(cs)) == ChildrenText(cs)
  {
    var ms := Paragraph(cs).members;
    assert ms[..1] == [("type", JStr("paragraph"))];
    assert Get(ms, "children") == Some(JArr(cs));
    assert Get(ms, "type") == Get(ms[..1], "type") == Some(JStr("paragraph"));
  }

  lemma DocumentText(cs: seq<Json>)
    ensures ExtractTextFromLexical(Document(cs)) == ChildrenText(cs)
  {
    var rms := [("children", JArr(cs))];
    assert Get(rms, "children") == Some(JArr(cs));
    assert Get(Document(cs).members, "root") == Some(JObj(rms));
  }
}
