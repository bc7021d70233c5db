/** Link extraction from a batch's detail payload: every class entry that
    carries a non-empty link becomes a line "title : link", free classes
    first, then the classes of each paid topic, all in payload order. */
module Links {
  import opened Wrappers
  import opened Tags

  /** A class entry; `None` stands for a key the JSON object does not have. */
  datatype Entry = Entry(className: Option<string>, link: Option<string>)

  /** A paid topic: its `class` list, when present. */
  datatype Topic = Topic(classes: Option<seq<Entry>>)

  /** The `data` object of the detail response. */
  datatype Detail = Detail(freeClass: Option<seq<Entry>>, paidClass: Option<seq<Topic>>)

  /** `c.get("link")` is truthy: present and not the empty string. */
  predicate HasLink(e: Entry) {
    e.link.Some? && e.link.value != ""
  }

  /** The class name with tags stripped; a missing name reads as "". */
  function Title(e: Entry): string {
    StripTags(e.className.GetOr(""))
  }

  /** The line written for an entry. */
  function Line(e: Entry): string
    requires e.link.Some?
  {
    Title(e) + " : " + e.link.value
  }

  /** The lines for a list of entries, one per linked entry, in order. */
  function EntryLines(es: seq<Entry>): seq<string> {
    if es == [] then []
    else (if HasLink(es[0]) then [Line(es[0])] else []) + EntryLines(es[1..])
  }

  /** The lines for the paid topics, topic by topic. */
  function TopicLines(ts: seq<Topic>): seq<string> {
    if ts == [] then [] else EntryLines(ts[0].classes.GetOr([])) + TopicLines(ts[1..])
  }

  /** What the extraction produces for a detail payload. */
  function Flatten(d: Detail): seq<string> {
    EntryLines(d.freeClass.GetOr([])) + TopicLines(d.paidClass.GetOr([]))
  }

  /** All classes nested in the paid topics, in payload order. */
  function Nested(ts: seq<Topic>): seq<Entry> {
    if ts == [] then [] else ts[0].classes.GetOr([]) + Nested(ts[1..])
  }

  /** Every entry of the payload, free classes first. */
  function AllEntries(d: Detail): seq<Entry> {
    d.freeClass.GetOr([]) + Nested(d.paidClass.GetOr([]))
  }

  /** The entries that carry a link, in order: an independent filter. */
  function Linked(es: seq<Entry>): (r: seq<Entry>)
    ensures |r| <= |es|
    ensures forall e :: e in r ==> e in es && HasLink(e)
    ensures forall e :: e in es && HasLink(e) ==> e in r
  {
    if es == [] then []
    else
      assert es == [es[0]] + es[1..];
      (if HasLink(es[0]) then [es[0]] else []) + Linked(es[1..])
  }

  lemma {:induction false} EntryLinesAppend(a: seq<Entry>, b: seq<Entry>)
    ensures EntryLines(a + b) == EntryLines(a) + EntryLines(b)
    decreases |a|
  {
    if a == [] {
      assert a + b == b;
    } else {
      assert (a + b)[1..] == a[1..] + b;
      EntryLinesAppend(a[1..], b);
    }
  }

  lemma {:induction false} TopicLinesAppend(a: seq<Topic>, b: seq<Topic>)
    ensures TopicLines(a + b) == TopicLines(a) + TopicLines(b)
    decreases |a|
  {
    if a == [] {
      assert a + b == b;
    } else {
      assert (a + b)[1..] == a[1..] + b;
      TopicLinesAppend(a[1..], b);
    }
  }

  /** Walking the topics and then each topic's classes is one pass over
      the nested classes in payload order. */
  lemma {:induction false} TopicLinesAreNestedLines(ts: seq<Topic>)
    ensures TopicLines(ts) == EntryLines(Nested(ts))
    decreases |ts|
  {
    if ts != [] {
      TopicLinesAreNestedLines(ts[1..]);
      EntryLinesAppend(ts[0].classes.GetOr([]), Nested(ts[1..]));
    }
  }

  /** The output is the linked entries, each turned into its line, in order. */
  lemma {:induction false} EntryLinesAreLinkedLines(es: seq<Entry>)
    ensures |EntryLines(es)| == |Linked(es)|
    ensures forall k :: 0 <= k < |Linked(es)| ==>
              HasLink(Linked(es)[k]) && EntryLines(es)[k] == Line(Linked(es)[k])
    decreases |es|
  {
    if es != [] {
      EntryLinesAreLinkedLines(es[1..]);
    }
  }

  /** Free-class lines come first, then paid lines, in payload order: the
      output is one filtering pass over all entries. */
  lemma FlattenInPayloadOrder(d: Detail)
    ensures Flatten(d) == EntryLines(d.freeClass.GetOr([])) + EntryLines(Nested(d.paidClass.GetOr([])))
    ensures Flatten(d) == EntryLines(AllEntries(d))
  {
    TopicLinesAreNestedLines(d.paidClass.GetOr([]));
    EntryLinesAppend(d.freeClass.GetOr([]), Nested(d.paidClass.GetOr([])));
  }

  /** One line per free entry with a link plus one per nested paid entry
      with a link. */
  lemma FlattenCount(d: Detail)
    ensures |Flatten(d)| == |Linked(d.freeClass.GetOr([]))| + |Linked(Nested(d.paidClass.GetOr([])))|
  {
    FlattenInPayloadOrder(d);
    EntryLinesAreLinkedLines(d.freeClass.GetOr([]));
    EntryLinesAreLinkedLines(Nested(d.paidClass.GetOr([])));
  }

  /** A line is emitted exactly when some entry with a link produces it. */
  lemma FlattenMembership(d: Detail, l: string)
    ensures l in Flatten(d) <==> exists e :: e in AllEntries(d) && HasLink(e) && Line(e) == l
  {
    var es := AllEntries(d);
    FlattenInPayloadOrder(d);
    EntryLinesAreLinkedLines(es);
    if l in Flatten(d) {
      var k :| 0 <= k < |EntryLines(es)| && EntryLines(es)[k] == l;
      assert Linked(es)[k] in Linked(es);
    }
    if e :| e in es && HasLink(e) && Line(e) == l {
      var k :| 0 <= k < |Linked(es)| && Linked(es)[k] == e;
      assert EntryLines(es)[k] == l;
    }
  }

  /** An entry without a class name still gets a line, with an empty title. */
  lemma MissingNameEmptyTitle(e: Entry)
    requires e.className.None? && HasLink(e)
    ensures Line(e) == " : " + e.link.value
  {
    assert StripTags("") == "";
  }

  /** The extraction loop: `links` starts empty and is appended to while
      walking the free classes, then each paid topic's classes. */
  method ExtractLinks(d: Detail) returns (links: seq<string>)
    ensures links == Flatten(d)
  {
    links := [];
    var free := d.freeClass.GetOr([]);
    for i := 0 to |free|
      invariant links == EntryLines(free[..i])
    {
      var c := free[i];
      if HasLink(c) {
        var title := StripTags(c.className.GetOr(""));
        links := links + [title + " : " + c.link.value];
      }
      assert free[..i + 1] == free[..i] + [c];
      EntryLinesAppend(free[..i], [c]);
    }
    assert free[..|free|] == free;
    var paid := d.paidClass.GetOr([]);
    for j := 0 to |paid|
      invariant links == EntryLines(free) + TopicLines(paid[..j])
    {
      var classes := paid[j].classes.GetOr([]);
      for k := 0 to |classes|
        invariant links == EntryLines(free) + TopicLines(paid[..j]) + EntryLines(classes[..k])
      {
        var c := classes[k];
        if HasLink(c) {
          var title := StripTags(c.className.GetOr(""));
          links := links + [title + " : " + c.link.value];
        }
        assert classes[..k + 1] == classes[..k] + [c];
        EntryLinesAppend(classes[..k], [c]);
      }
      assert classes[..|classes|] == classes;
      assert paid[..j + 1] == paid[..j] + [paid[j]];
      TopicLinesAppend(paid[..j], [paid[j]]);
    }
    assert paid[..|paid|] == paid;
  }
}
