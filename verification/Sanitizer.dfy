/** The allow-list sanitizer for message bodies (client/js/ui.js, `sanitizeNode`). */
module Sanitizer {
  import opened Prelude
  import opened Selection

  datatype Attr = Attr(name: string, value: string)

  /** A DOM subtree; `Comment` stands for every node that is neither an element nor a text. */
  datatype Dom = Text(data: string) | Comment(data: string) | Elem(tag: string, attrs: seq<Attr>, kids: seq<Dom>)

  const ALLOWED_TAGS: set<string> :=
    {"B", "STRONG", "I", "EM", "U", "A", "UL", "OL", "LI", "BR", "P", "DIV", "SPAN", "BLOCKQUOTE", "CODE", "PRE",
     "H1", "H2", "H3"}

  /** The DOM keeps one attribute of a name on an element. */
  ghost predicate WellFormed(d: Dom)
    decreases d
  {
    d.Elem? ==>
      && (forall i, j :: 0 <= i < j < |d.attrs| ==> d.attrs[i].name != d.attrs[j].name)
      && forall i :: 0 <= i < |d.kids| ==> WellFormed(d.kids[i])
  }

  /** `^(https?:|mailto:)`, case-insensitively. */
  predicate SafeScheme(url: string) {
    var u := Lower(url);
    "http:" <= u || "https:" <= u || "mailto:" <= u
  }

  predicate KeptHref(tag: string, a: Attr) {
    tag == "A" && Lower(a.name) == "href" && SafeScheme(a.value)
  }

  /** `textContent`: the text below, comments left out. */
  function TextOf(d: Dom): string
    decreases d, 0
  {
    match d
    case Text(data) => data
    case Comment(_) => ""
    case Elem(_, _, kids) => TextsOf(kids)
  }

  function TextsOf(kids: seq<Dom>): string
    decreases kids, 1
  {
    if kids == [] then "" else TextsOf(kids[..|kids| - 1]) + TextOf(kids[|kids| - 1])
  }

  // --- what is left --------------------------------------------------------------------------------------------

  function KeptAttrs(tag: string, attrs: seq<Attr>): seq<Attr> {
    if attrs == [] then []
    else
      var last := attrs[|attrs| - 1];
      KeptAttrs(tag, attrs[..|attrs| - 1]) + (if KeptHref(tag, last) then [last] else [])
  }

  /** `setAttribute`. */
  function WithAttr(attrs: seq<Attr>, a: Attr): seq<Attr> {
    if attrs == [] then [a]
    else if attrs[0].name == a.name then [a] + attrs[1..]
    else [attrs[0]] + WithAttr(attrs[1..], a)
  }

  const TARGET := Attr("target", "_blank")
  const REL := Attr("rel", "noopener noreferrer nofollow")

  function CleanAttrs(tag: string, attrs: seq<Attr>): seq<Attr> {
    var kept := KeptAttrs(tag, attrs);
    if tag == "A" then WithAttr(WithAttr(kept, TARGET), REL) else kept
  }

  /** A child after sanitizing its parent. */
  function Clean(d: Dom): Dom
    decreases d
  {
    if !d.Elem? then d
    else if d.tag !in ALLOWED_TAGS then Text(TextOf(d))
    else Elem(d.tag, CleanAttrs(d.tag, d.attrs), seq(|d.kids|, i requires 0 <= i < |d.kids| => Clean(d.kids[i])))
  }

  /** The root keeps its own tag and attributes; its children are sanitized. */
  function Sanitized(d: Dom): Dom
    requires d.Elem?
  {
    d.(kids := seq(|d.kids|, i requires 0 <= i < |d.kids| => Clean(d.kids[i])))
  }

  // --- what is allowed, name by name ---------------------------------------------------------------------------

  /** The letter itself or, of a lower-case one, its capital. */
  predicate SameLetter(c: char, letter: char) {
    c == letter || ('a' <= letter <= 'z' && c as int + 32 == letter as int)
  }

  predicate Begins(s: string, with: string) {
    |with| <= |s| && forall i :: 0 <= i < |with| ==> SameLetter(s[i], with[i])
  }

  predicate WebOrMail(url: string) { Begins(url, "http:") || Begins(url, "https:") || Begins(url, "mailto:") }

  /** A link target to the web or to a mailbox. */
  predicate IsLink(a: Attr) { |a.name| == 4 && Begins(a.name, "href") && WebOrMail(a.value) }

  predicate Listed(tag: string) {
    || tag in {"B", "STRONG", "I", "EM", "U", "A", "UL", "OL", "LI", "BR"}
    || tag in {"P", "DIV", "SPAN", "BLOCKQUOTE", "CODE", "PRE", "H1", "H2", "H3"}
  }

  /** Nothing but link targets, on links only, and the forced pair at the end of every link. */
  predicate SafeAttrs(tag: string, attrs: seq<Attr>) {
    if tag == "A" then
      && |attrs| >= 2
      && attrs[|attrs| - 2] == Attr("target", "_blank")
      && attrs[|attrs| - 1] == Attr("rel", "noopener noreferrer nofollow")
      && forall i :: 0 <= i < |attrs| - 2 ==> IsLink(attrs[i])
    else attrs == []
  }

  predicate Safe(d: Dom)
    decreases d
  {
    d.Elem? ==> Listed(d.tag) && SafeAttrs(d.tag, d.attrs) && forall i :: 0 <= i < |d.kids| ==> Safe(d.kids[i])
  }

  lemma BeginsLower(s: string, with: string)
    requires forall i :: 0 <= i < |with| ==> !('A' <= with[i] <= 'Z')
    ensures with <= Lower(s) <==> Begins(s, with)
  {
    forall i | 0 <= i < |with| && i < |s|
      ensures Lower(s)[i] == with[i] <==> SameLetter(s[i], with[i])
    {
    }
    if Begins(s, with) {
      assert forall i :: 0 <= i < |with| ==> Lower(s)[i] == with[i];
    }
  }

  lemma HrefIs(name: string)
    ensures Lower(name) == "href" <==> |name| == 4 && Begins(name, "href")
  {
    BeginsLower(name, "href");
  }

  lemma KeptIsLink(tag: string, a: Attr)
    ensures KeptHref(tag, a) <==> tag == "A" && IsLink(a)
  {
    HrefIs(a.name);
    BeginsLower(a.value, "http:");
    BeginsLower(a.value, "https:");
    BeginsLower(a.value, "mailto:");
  }

  lemma AllowedAreListed(tag: string)
    ensures tag in ALLOWED_TAGS <==> Listed(tag)
  {
  }

  // --- safety --------------------------------------------------------------------------------------------------

  lemma {:induction false} KeptAttrsAre(tag: string, attrs: seq<Attr>)
    ensures forall i :: 0 <= i < |KeptAttrs(tag, attrs)| ==> KeptHref(tag, KeptAttrs(tag, attrs)[i])
    ensures tag != "A" ==> KeptAttrs(tag, attrs) == []
  {
    if attrs != [] {
      KeptAttrsAre(tag, attrs[..|attrs| - 1]);
    }
  }

  lemma {:induction false} WithNewAttr(attrs: seq<Attr>, a: Attr)
    requires forall i :: 0 <= i < |attrs| ==> attrs[i].name != a.name
    ensures WithAttr(attrs, a) == attrs + [a]
  {
    if attrs != [] {
      WithNewAttr(attrs[1..], a);
    }
  }

  lemma HrefIsNeither(tag: string, a: Attr)
    requires KeptHref(tag, a)
    ensures a.name != TARGET.name && a.name != REL.name
  {
    assert |Lower(a.name)| == 4;
  }

  /** Of names as the HTML parser makes them, unique and in lower case, at most one link target is left. */
  lemma {:induction false} OneHref(tag: string, attrs: seq<Attr>)
    requires forall i, j :: 0 <= i < j < |attrs| ==> attrs[i].name != attrs[j].name
    requires forall i :: 0 <= i < |attrs| ==> Lower(attrs[i].name) == attrs[i].name
    ensures |KeptAttrs(tag, attrs)| <= 1
  {
    if attrs != [] {
      var n := |attrs| - 1;
      OneHref(tag, attrs[..n]);
      if |KeptAttrs(tag, attrs[..n])| == 1 {
        var a := KeptAttrs(tag, attrs[..n])[0];
        KeptAttrsAre(tag, attrs[..n]);
        KeptFrom(tag, attrs[..n], a);
        var i :| 0 <= i < n && attrs[..n][i] == a;
        assert attrs[i].name == "href";
      }
    }
  }

  lemma CleanAttrsShape(tag: string, attrs: seq<Attr>)
    ensures CleanAttrs(tag, attrs) == KeptAttrs(tag, attrs) + (if tag == "A" then [TARGET, REL] else [])
  {
    hide KeptHref;
    var kept := KeptAttrs(tag, attrs);
    KeptAttrsAre(tag, attrs);
    forall i | 0 <= i < |kept|
      ensures kept[i].name != TARGET.name && kept[i].name != REL.name
    {
      HrefIsNeither(tag, kept[i]);
    }
    WithNewAttr(kept, TARGET);
    WithNewAttr(kept + [TARGET], REL);
    assert kept + [TARGET] + [REL] == kept + [TARGET, REL];
  }

  lemma CleanAttrsSafe(tag: string, attrs: seq<Attr>)
    ensures SafeAttrs(tag, CleanAttrs(tag, attrs))
  {
    hide KeptHref, IsLink, CleanAttrs, KeptAttrs;
    CleanAttrsShape(tag, attrs);
    KeptAttrsAre(tag, attrs);
    var kept := KeptAttrs(tag, attrs);
    forall i | 0 <= i < |kept|
      ensures tag == "A" && IsLink(kept[i])
    {
      KeptIsLink(tag, kept[i]);
    }
  }

  lemma {:induction false} CleanIsSafe(d: Dom)
    ensures Safe(Clean(d))
    decreases d
  {
    if d.Elem? {
      AllowedAreListed(d.tag);
      if d.tag in ALLOWED_TAGS {
        CleanAttrsSafe(d.tag, d.attrs);
        hide CleanAttrs, SafeAttrs, Listed;
        forall i | 0 <= i < |d.kids|
          ensures Safe(Clean(d.kids[i]))
        {
          CleanIsSafe(d.kids[i]);
        }
      }
    }
  }

  /**
   * After sanitizing, every element below the root bears one of the 19 names and no attributes but, on a link, targets
   * to the web or a mailbox and the forced pair.
   */
  lemma SanitizedIsSafe(root: Dom)
    requires root.Elem?
    ensures forall i :: 0 <= i < |Sanitized(root).kids| ==> Safe(Sanitized(root).kids[i])
  {
    forall i | 0 <= i < |root.kids|
      ensures Safe(Clean(root.kids[i]))
    {
      CleanIsSafe(root.kids[i]);
    }
  }

  // --- nothing else is lost --------------------------------------------------------------------------------------

  /** The attributes left: on a link exactly the link targets, in order, and the pair; elsewhere none. */
  ghost predicate AttrsLeft(tag: string, attrs: seq<Attr>, left: seq<Attr>) {
    if tag == "A" then
      exists places, links ::
        && Picks(attrs, places, links) && (forall i :: 0 <= i < |attrs| ==> (i in places <==> IsLink(attrs[i])))
        && left == links + [Attr("target", "_blank"), Attr("rel", "noopener noreferrer nofollow")]
    else left == []
  }

  /** What is left of a node: an element of the 19 names as it was, its children likewise; of any other its text. */
  ghost predicate Left(d: Dom, r: Dom)
    decreases d
  {
    if d.Elem? && Listed(d.tag) then
      && r.Elem? && r.tag == d.tag && AttrsLeft(d.tag, d.attrs, r.attrs)
      && |r.kids| == |d.kids| && forall i :: 0 <= i < |d.kids| ==> Left(d.kids[i], r.kids[i])
    else r == if d.Elem? then Text(TextOf(d)) else d
  }

  lemma {:induction false} KeptPicks(attrs: seq<Attr>) returns (places: seq<nat>)
    ensures Picks(attrs, places, KeptAttrs("A", attrs))
    ensures forall i :: 0 <= i < |attrs| ==> (i in places <==> IsLink(attrs[i]))
  {
    places := [];
    if attrs != [] {
      hide IsLink, KeptHref;
      var n := |attrs| - 1;
      places := KeptPicks(attrs[..n]);
      PicksMore(attrs[..n], places, KeptAttrs("A", attrs[..n]), attrs[n]);
      KeptIsLink("A", attrs[n]);
      assert attrs == attrs[..n] + [attrs[n]];
      assert forall i :: 0 <= i < n ==> attrs[..n][i] == attrs[i];
      if IsLink(attrs[n]) {
        places := places + [n];
      }
    }
  }

  lemma CleanAttrsLeft(tag: string, attrs: seq<Attr>)
    ensures AttrsLeft(tag, attrs, CleanAttrs(tag, attrs))
  {
    hide KeptHref, IsLink, CleanAttrs, KeptAttrs, Picks;
    CleanAttrsShape(tag, attrs);
    KeptAttrsAre(tag, attrs);
    if tag == "A" {
      var places := KeptPicks(attrs);
    }
  }

  lemma {:induction false} CleanLeaves(d: Dom)
    ensures Left(d, Clean(d))
    decreases d
  {
    if d.Elem? {
      AllowedAreListed(d.tag);
      if d.tag in ALLOWED_TAGS {
        CleanAttrsLeft(d.tag, d.attrs);
        hide CleanAttrs, AttrsLeft, Listed;
        forall i | 0 <= i < |d.kids|
          ensures Left(d.kids[i], Clean(d.kids[i]))
        {
          CleanLeaves(d.kids[i]);
        }
      }
    }
  }

  /**
   * Nothing that is allowed is lost: below the root every element of the 19 names stays an element in its place, a
   * link keeps every target to the web or a mailbox, and any other element leaves its text.
   */
  lemma SanitizedKeepsAllowed(root: Dom)
    requires root.Elem?
    ensures var r := Sanitized(root);
            && r.tag == root.tag && r.attrs == root.attrs && |r.kids| == |root.kids|
            && forall i :: 0 <= i < |root.kids| ==> Left(root.kids[i], r.kids[i])
  {
    hide Clean, Left;
    forall i | 0 <= i < |root.kids|
      ensures Left(root.kids[i], Clean(root.kids[i]))
    {
      CleanLeaves(root.kids[i]);
    }
  }

  // --- meaning kept --------------------------------------------------------------------------------------------

  lemma {:induction false} TextsAgree(kids: seq<Dom>, others: seq<Dom>)
    requires |kids| == |others| && forall i :: 0 <= i < |kids| ==> TextOf(kids[i]) == TextOf(others[i])
    ensures TextsOf(kids) == TextsOf(others)
  {
    if kids != [] {
      TextsAgree(kids[..|kids| - 1], others[..|others| - 1]);
    }
  }

  lemma {:induction false} CleanKeepsText(d: Dom)
    ensures TextOf(Clean(d)) == TextOf(d)
    decreases d
  {
    hide CleanAttrs;
    if d.Elem? && d.tag in ALLOWED_TAGS {
      forall i | 0 <= i < |d.kids|
        ensures TextOf(Clean(d.kids[i])) == TextOf(d.kids[i])
      {
        CleanKeepsText(d.kids[i]);
      }
      TextsAgree(Clean(d).kids, d.kids);
    }
  }

  /** No text is lost, added or moved. */
  lemma SanitizedKeepsText(root: Dom)
    requires root.Elem?
    ensures TextOf(Sanitized(root)) == TextOf(root)
  {
    hide Clean;
    forall i | 0 <= i < |root.kids|
      ensures TextOf(Clean(root.kids[i])) == TextOf(root.kids[i])
    {
      CleanKeepsText(root.kids[i]);
    }
    TextsAgree(Sanitized(root).kids, root.kids);
  }

  // --- twice is once -------------------------------------------------------------------------------------------

  lemma {:induction false} KeptAll(tag: string, attrs: seq<Attr>)
    requires forall i :: 0 <= i < |attrs| ==> KeptHref(tag, attrs[i])
    ensures KeptAttrs(tag, attrs) == attrs
  {
    hide KeptHref;
    if attrs != [] {
      KeptAll(tag, attrs[..|attrs| - 1]);
    }
  }

  lemma KeptPush(tag: string, attrs: seq<Attr>, a: Attr)
    ensures KeptAttrs(tag, attrs + [a]) == KeptAttrs(tag, attrs) + (if KeptHref(tag, a) then [a] else [])
  {
    hide KeptHref;
    assert (attrs + [a])[..|attrs|] == attrs;
  }

  lemma PairIsNoHref()
    ensures !KeptHref("A", TARGET) && !KeptHref("A", REL)
  {
    assert |Lower(TARGET.name)| == 6 && |Lower(REL.name)| == 3;
  }

  lemma KeptBeforePair(kept: seq<Attr>)
    requires forall i :: 0 <= i < |kept| ==> KeptHref("A", kept[i])
    ensures KeptAttrs("A", kept + [TARGET, REL]) == kept
  {
    hide KeptHref, KeptAttrs;
    KeptAll("A", kept);
    PairIsNoHref();
    KeptPush("A", kept, TARGET);
    KeptPush("A", kept + [TARGET], REL);
    assert kept + [TARGET] + [REL] == kept + [TARGET, REL];
  }

  lemma CleanAttrsTwice(tag: string, attrs: seq<Attr>)
    ensures CleanAttrs(tag, CleanAttrs(tag, attrs)) == CleanAttrs(tag, attrs)
  {
    hide KeptHref;
    CleanAttrsShape(tag, attrs);
    KeptAttrsAre(tag, attrs);
    CleanAttrsShape(tag, CleanAttrs(tag, attrs));
    if tag == "A" {
      KeptBeforePair(KeptAttrs(tag, attrs));
    } else {
      assert CleanAttrs(tag, attrs) == [];
    }
  }

  lemma {:induction false} CleanTwice(d: Dom)
    ensures Clean(Clean(d)) == Clean(d)
    decreases d
  {
    if d.Elem? && d.tag in ALLOWED_TAGS {
      CleanAttrsTwice(d.tag, d.attrs);
      hide CleanAttrs;
      forall i | 0 <= i < |d.kids|
        ensures Clean(Clean(d.kids[i])) == Clean(d.kids[i])
      {
        CleanTwice(d.kids[i]);
      }
    }
  }

  /** Sanitizing a second time changes nothing. */
  lemma SanitizedTwice(root: Dom)
    requires root.Elem?
    ensures Sanitized(Sanitized(root)) == Sanitized(root)
  {
    hide Clean;
    forall i | 0 <= i < |root.kids|
      ensures Clean(Clean(root.kids[i])) == Clean(root.kids[i])
    {
      CleanTwice(root.kids[i]);
    }
  }

  // --- in place ------------------------------------------------------------------------------------------------

  /** An element in hand.  A node of a document has one parent, which owns its children. */
  class Element {
    const tagName: string
    var attributes: seq<Attr>
    var childNodes: seq<Dom>

    function Value(): Dom
      reads this
    {
      Elem(tagName, attributes, childNodes)
    }

    constructor (d: Dom)
      requires d.Elem?
      ensures Value() == d
    {
      tagName, attributes, childNodes := d.tag, d.attrs, d.kids;
    }

    method RemoveAttribute(name: string)
      modifies this`attributes
      ensures attributes == Without(old(attributes), name)
    {
      hide Without;
      var i := 0;
      while i < |attributes| && attributes[i].name != name
        invariant i <= |attributes| && forall j :: 0 <= j < i ==> attributes[j].name != name
      {
        i := i + 1;
      }
      assert attributes[..i] + attributes[i..] == attributes;
      WithoutAfter(attributes[..i], attributes[i..], name);
      WithoutFirst(attributes[i..], name);
      if i < |attributes| {
        assert attributes[i..][1..] == attributes[i + 1..];
        attributes := attributes[..i] + attributes[i + 1..];
      }
    }

    method SetAttribute(a: Attr)
      modifies this`attributes
      ensures attributes == WithAttr(old(attributes), a)
    {
      var i := 0;
      while i < |attributes| && attributes[i].name != a.name
        invariant i <= |attributes|
        invariant WithAttr(attributes, a) == attributes[..i] + WithAttr(attributes[i..], a)
      {
        assert attributes[i..][1..] == attributes[i + 1..];
        i := i + 1;
      }
      if i < |attributes| {
        attributes := attributes[i := a];
        assert old(attributes)[i..][1..] == old(attributes)[i + 1..];
      } else {
        attributes := attributes + [a];
      }
    }

    /** Remove what is not allowed, walking a copy of the list. */
    method DropUnsafe()
      requires forall i, j :: 0 <= i < j < |attributes| ==> attributes[i].name != attributes[j].name
      modifies this`attributes
      ensures attributes == KeptAttrs(tagName, old(attributes))
    {
      hide KeptHref, KeptAttrs, Without;
      var snapshot := attributes;
      KeptNone(tagName, snapshot);
      for k := 0 to |snapshot|
        invariant attributes == KeptAttrs(tagName, snapshot[..k]) + snapshot[k..]
      {
        DropStep(tagName, snapshot, k);
        if !KeptHref(tagName, snapshot[k]) {
          RemoveAttribute(snapshot[k].name);
        }
      }
      assert snapshot[..|snapshot|] == snapshot;
    }

    /** Drop what is not allowed and force the pair on links. */
    method CleanAttributes()
      requires forall i, j :: 0 <= i < j < |attributes| ==> attributes[i].name != attributes[j].name
      modifies this`attributes
      ensures attributes == CleanAttrs(tagName, old(attributes))
    {
      hide KeptAttrs, WithAttr;
      DropUnsafe();
      if tagName == "A" {
        SetAttribute(TARGET);
        SetAttribute(REL);
      }
    }
  }

  lemma KeptNone(tag: string, attrs: seq<Attr>)
    ensures KeptAttrs(tag, attrs[..0]) + attrs[0..] == attrs
  {
  }

  lemma KeptNext(tag: string, attrs: seq<Attr>, k: nat)
    requires k < |attrs|
    ensures KeptAttrs(tag, attrs[..k + 1])
         == KeptAttrs(tag, attrs[..k]) + (if KeptHref(tag, attrs[k]) then [attrs[k]] else [])
    ensures attrs[k..] == [attrs[k]] + attrs[k + 1..]
  {
    hide KeptHref;
    assert attrs[..k + 1][..k] == attrs[..k];
  }

  /** Looking at one more attribute: it stays where it is, or taking it out leaves the rest. */
  lemma DropStep(tag: string, attrs: seq<Attr>, k: nat)
    requires k < |attrs| && forall i, j :: 0 <= i < j < |attrs| ==> attrs[i].name != attrs[j].name
    ensures var before := KeptAttrs(tag, attrs[..k]) + attrs[k..];
            var after := KeptAttrs(tag, attrs[..k + 1]) + attrs[k + 1..];
            after == if KeptHref(tag, attrs[k]) then before else Without(before, attrs[k].name)
  {
    hide KeptHref, KeptAttrs, Without;
    KeptNext(tag, attrs, k);
    RemoveMiddle(KeptAttrs(tag, attrs[..k]), attrs, k, tag);
  }

  lemma WithoutFirst(attrs: seq<Attr>, name: string)
    ensures attrs == [] || attrs[0].name == name ==> Without(attrs, name) == if attrs == [] then [] else attrs[1..]
  {
  }

  /** `removeAttribute`. */
  function Without(attrs: seq<Attr>, name: string): seq<Attr> {
    if attrs == [] then [] else if attrs[0].name == name then attrs[1..] else [attrs[0]] + Without(attrs[1..], name)
  }

  lemma {:induction false} WithoutAfter(before: seq<Attr>, after: seq<Attr>, name: string)
    requires forall i :: 0 <= i < |before| ==> before[i].name != name
    ensures Without(before + after, name) == before + Without(after, name)
  {
    if before == [] {
      assert before + after == after;
    } else {
      WithoutAfter(before[1..], after, name);
      assert (before + after)[1..] == before[1..] + after;
    }
  }

  lemma {:induction false} KeptFrom(tag: string, attrs: seq<Attr>, a: Attr)
    requires a in KeptAttrs(tag, attrs)
    ensures a in attrs
  {
    if a !in KeptAttrs(tag, attrs[..|attrs| - 1]) {
      assert a == attrs[|attrs| - 1];
    } else {
      KeptFrom(tag, attrs[..|attrs| - 1], a);
    }
  }

  lemma RemoveMiddle(kept: seq<Attr>, snapshot: seq<Attr>, k: nat, tag: string)
    requires k < |snapshot| && kept == KeptAttrs(tag, snapshot[..k])
    requires forall i, j :: 0 <= i < j < |snapshot| ==> snapshot[i].name != snapshot[j].name
    ensures Without(kept + snapshot[k..], snapshot[k].name) == kept + snapshot[k + 1..]
  {
    forall i | 0 <= i < |kept|
      ensures kept[i].name != snapshot[k].name
    {
      KeptFrom(tag, snapshot[..k], kept[i]);
    }
    WithoutAfter(kept, snapshot[k..], snapshot[k].name);
  }

  /**
   * Walk a copy of the children: unwrap what is not allow-listed, clean the attributes of the rest, recurse.
   * `tree` is any element with these children; the recursion follows it.
   */
  method SanitizeNode(node: Element, ghost tree: Dom)
    requires tree.Elem? && node.childNodes == tree.kids && forall i :: 0 <= i < |tree.kids| ==> WellFormed(tree.kids[i])
    modifies node`childNodes
    ensures node.Value() == Sanitized(old(node.Value()))
    decreases tree
  {
    hide CleanAttrs;
    var snapshot := node.childNodes;
    for k := 0 to |snapshot|
      invariant |node.childNodes| == |snapshot|
      invariant forall i :: 0 <= i < |snapshot| ==>
                  node.childNodes[i] == if i < k then Clean(snapshot[i]) else snapshot[i]
    {
      var kid := snapshot[k];
      if kid.Elem? {
        if kid.tag !in ALLOWED_TAGS {
          node.childNodes := node.childNodes[k := Text(TextOf(kid))];
        } else {
          var child := new Element(kid);
          child.CleanAttributes();
          SanitizeNode(child, kid);
          node.childNodes := node.childNodes[k := child.Value()];
        }
      }
    }
  }
}
