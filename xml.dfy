/** Stock optional value, used for the readers that may reject their input. */
module Options {
  datatype Option<T> = None | Some(value: T)
}

/**
  The XML pull-serializer of the platform, modelled as the log of the calls
  made on it. What the real serializer writes as characters (escaping, the
  XML declaration) is not modelled: the exported document IS this log.
*/
module XmlEvents {
  import opened Options

  /** One call made on the serializer, in the order it was made. */
  datatype XmlEvent =
    | StartDocument(encoding: string, standalone: bool)
    | StartTag(name: string)
    | Attr(key: string, value: string)
    | Text(text: string)
    | EndTag(name: string)
    | EndDocument

  /**
    Where a reader of the log stands: the names of the elements that are open
    (innermost last) and whether the last event opened a start tag, so that an
    attribute may follow.
  */
  datatype Cursor = Cursor(open: seq<string>, inStartTag: bool)

  /** The effect of one event, or None when the event is out of place. */
  function Step(c: Cursor, e: XmlEvent): Option<Cursor>
  {
    match e
    case StartDocument(_, _) => if c.open == [] then Some(Cursor([], false)) else None
    case StartTag(name) => Some(Cursor(c.open + [name], true))
    case Attr(_, _) => if c.inStartTag then Some(c) else None
    case Text(_) => if c.open != [] then Some(Cursor(c.open, false)) else None
    case EndTag(name) =>
      if c.open != [] && c.open[|c.open| - 1] == name
      then Some(Cursor(c.open[..|c.open| - 1], false))
      else None
    case EndDocument => if c.open == [] then Some(Cursor([], false)) else None
  }

  /** Reads a whole log from `c`; None as soon as one event is out of place. */
  function Walk(c: Cursor, es: seq<XmlEvent>): Option<Cursor>
    decreases |es|
  {
    if es == [] then Some(c)
    else match Step(c, es[0])
      case None => None
      case Some(next) => Walk(next, es[1..])
  }

  /**
    A log is well nested when, read from nothing open, every end tag closes
    the innermost open element of the same name, every attribute follows a
    start tag or another attribute, and nothing is left open at the end.
  */
  predicate WellNested(es: seq<XmlEvent>)
  {
    Walk(Cursor([], false), es) == Some(Cursor([], false))
  }

  /** Reading two logs one after the other is reading their concatenation. */
  lemma {:induction false} WalkAppend(c: Cursor, a: seq<XmlEvent>, b: seq<XmlEvent>)
    ensures Walk(c, a + b) == if Walk(c, a).Some? then Walk(Walk(c, a).value, b) else None
    decreases |a|
  {
    if a == [] {
      assert a + b == b;
    } else {
      assert (a + b)[0] == a[0];
      assert (a + b)[1..] == a[1..] + b;
      match Step(c, a[0])
      case None =>
      case Some(next) => WalkAppend(next, a[1..], b);
    }
  }

  /** The events of one element: its start tag, its attributes, its content and its end tag. */
  function Element(name: string, attrs: seq<XmlEvent>, content: seq<XmlEvent>): seq<XmlEvent>
  {
    [StartTag(name)] + attrs + content + [EndTag(name)]
  }

  predicate AllAttrs(attrs: seq<XmlEvent>)
  {
    forall i :: 0 <= i < |attrs| ==> attrs[i].Attr?
  }

  /** Attributes right after a start tag are accepted and change nothing. */
  lemma {:induction false} AttrsWalk(c: Cursor, attrs: seq<XmlEvent>)
    requires c.inStartTag && AllAttrs(attrs)
    ensures Walk(c, attrs) == Some(c)
    decreases |attrs|
  {
    if attrs != [] {
      AttrsWalk(c, attrs[1..]);
    }
  }

  /**
    An element whose content, read just inside it, ends with the element
    itself innermost, is read as a whole and leaves open what was open before.
  */
  lemma ElementNested(c: Cursor, name: string, attrs: seq<XmlEvent>, content: seq<XmlEvent>)
    requires AllAttrs(attrs)
    requires Walk(Cursor(c.open + [name], true), content).Some?
    requires Walk(Cursor(c.open + [name], true), content).value.open == c.open + [name]
    ensures Walk(c, Element(name, attrs, content)) == Some(Cursor(c.open, false))
  {
    var inside := Cursor(c.open + [name], true);
    var last := Walk(inside, content).value;
    assert [StartTag(name)][1..] == [];
    assert Walk(c, [StartTag(name)]) == Some(inside);
    AttrsWalk(inside, attrs);
    WalkAppend(c, [StartTag(name)], attrs);
    WalkAppend(c, [StartTag(name)] + attrs, content);
    assert last.open[..|last.open| - 1] == c.open;
    assert [EndTag(name)][1..] == [];
    assert Walk(last, [EndTag(name)]) == Some(Cursor(c.open, false));
    WalkAppend(c, [StartTag(name)] + attrs + content, [EndTag(name)]);
  }

  /** A text node inside an open element keeps it open. */
  lemma TextWalk(c: Cursor, text: string)
    requires c.open != []
    ensures Walk(c, [Text(text)]) == Some(Cursor(c.open, false))
  {
  }

  /** How many times `x` occurs in the log. */
  function Count(es: seq<XmlEvent>, x: XmlEvent): nat
    decreases |es|
  {
    if es == [] then 0 else (if es[0] == x then 1 else 0) + Count(es[1..], x)
  }

  lemma {:induction false} CountAppend(a: seq<XmlEvent>, b: seq<XmlEvent>, x: XmlEvent)
    ensures Count(a + b, x) == Count(a, x) + Count(b, x)
    decreases |a|
  {
    if a == [] {
      assert a + b == b;
    } else {
      assert (a + b)[1..] == a[1..] + b;
      CountAppend(a[1..], b, x);
    }
  }

  /** Attributes contain no tag. */
  lemma {:induction false} AttrsCount(attrs: seq<XmlEvent>, x: XmlEvent)
    requires AllAttrs(attrs) && !x.Attr?
    ensures Count(attrs, x) == 0
    decreases |attrs|
  {
    if attrs != [] {
      AttrsCount(attrs[1..], x);
    }
  }

  /** The tags an element holds: its own two and those of its content. */
  lemma ElementCount(name: string, attrs: seq<XmlEvent>, content: seq<XmlEvent>, x: XmlEvent)
    requires AllAttrs(attrs) && !x.Attr?
    ensures Count(Element(name, attrs, content), x) ==
      (if x == StartTag(name) then 1 else 0) + Count(content, x) + (if x == EndTag(name) then 1 else 0)
  {
    AttrsCount(attrs, x);
    assert [StartTag(name)][1..] == [] && [EndTag(name)][1..] == [];
    CountAppend([StartTag(name)], attrs, x);
    CountAppend([StartTag(name)] + attrs, content, x);
    CountAppend([StartTag(name)] + attrs + content, [EndTag(name)], x);
  }

  /** The serializer: every call appends its event to the log and changes nothing else. */
  class Serializer {
    var events: seq<XmlEvent>

    constructor ()
      ensures events == []
    {
      events := [];
    }

    method StartDocument(encoding: string, standalone: bool)
      modifies this
      ensures events == old(events) + [XmlEvent.StartDocument(encoding, standalone)]
    {
      events := events + [XmlEvent.StartDocument(encoding, standalone)];
    }

    method StartTag(name: string)
      modifies this
      ensures events == old(events) + [XmlEvent.StartTag(name)]
    {
      events := events + [XmlEvent.StartTag(name)];
    }

    method Attribute(key: string, value: string)
      modifies this
      ensures events == old(events) + [XmlEvent.Attr(key, value)]
    {
      events := events + [XmlEvent.Attr(key, value)];
    }

    method Text(text: string)
      modifies this
      ensures events == old(events) + [XmlEvent.Text(text)]
    {
      events := events + [XmlEvent.Text(text)];
    }

    method EndTag(name: string)
      modifies this
      ensures events == old(events) + [XmlEvent.EndTag(name)]
    {
      events := events + [XmlEvent.EndTag(name)];
    }

    method EndDocument()
      modifies this
      ensures events == old(events) + [XmlEvent.EndDocument]
    {
      events := events + [XmlEvent.EndDocument];
    }
  }
}
