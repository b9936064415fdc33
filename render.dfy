/**
 * The small rendering decisions of main.py: the bulleted list every listing
 * page is built from, the contents link of a scouting-observation
 * attachment, and the "more records" link of the paginated activity pages.
 * URLs are produced by the web framework's router, which is not part of this
 * model: they arrive as function parameters.
 */
module Render {
  import opened Values

  /** Python's `sep.join(xs)`. */
  function Join(xs: seq<string>, sep: string): (r: string)
    ensures xs == [] ==> r == ""
    ensures |xs| == 1 ==> r == xs[0]
    ensures xs != [] ==> |r| >= |xs[0]| && r[..|xs[0]|] == xs[0]
    ensures xs != [] ==> |r| >= |xs[|xs| - 1]| && r[|r| - |xs[|xs| - 1]|..] == xs[|xs| - 1]
  {
    if xs == [] then ""
    else if |xs| == 1 then xs[0]
    else xs[0] + sep + Join(xs[1..], sep)
  }

  function ListItem(x: string): string
  {
    "<li>" + x + "</li>"
  }

  function ListItems(xs: seq<string>): (r: seq<string>)
    ensures |r| == |xs| && forall i :: 0 <= i < |xs| ==> r[i] == ListItem(xs[i])
  {
    seq(|xs|, i requires 0 <= i < |xs| => ListItem(xs[i]))
  }

  /** `render_ul`: the items, each in an `<li>` element, one per line,
      inside a `<ul>` element. */
  function RenderUl(xs: seq<string>): (r: string)
    ensures |r| >= 9 && r[..4] == "<ul>" && r[|r| - 5..] == "</ul>"
    ensures r == "<ul></ul>" <==> xs == []
  {
    var inner := Join(ListItems(xs), "\n");
    assert xs != [] ==> |inner| >= |ListItem(xs[0])| > 0;
    "<ul>" + inner + "</ul>"
  }

  /** Regrouping concatenations of strings. */
  lemma RegroupTail(a: string, b: string, c: string, d: string, e: string)
    ensures a + b + (c + d + e) == (a + b + c) + d + e
  {
  }

  lemma RegroupClose(p: string, a: string, n: string, b: string, q: string)
    ensures p + (a + n + b) + q == (p + a) + n + b + q
  {
  }

  lemma RegroupItems(p: string, a: string, q: string, n: string, p': string, b: string, q': string)
    ensures p + a + q + n + (p' + b + q') == p + (a + q + n + p' + b) + q'
  {
  }

  /** Joining one more part appends the separator and that part. */
  lemma {:induction false} JoinAppend(xs: seq<string>, x: string, sep: string)
    requires xs != []
    ensures Join(xs + [x], sep) == Join(xs, sep) + sep + x
  {
    var ys := xs + [x];
    assert |ys| >= 2 && ys[0] == xs[0];
    if |xs| == 1 {
      assert ys[1..] == [x];
      assert Join(ys, sep) == xs[0] + sep + Join([x], sep);
    } else {
      assert ys[1..] == xs[1..] + [x];
      JoinAppend(xs[1..], x, sep);
      var rest := Join(xs[1..], sep);
      assert Join(ys, sep) == xs[0] + sep + (rest + sep + x);
      assert Join(xs, sep) == xs[0] + sep + rest;
      RegroupTail(xs[0], sep, rest, sep, x);
    }
  }

  /** The rendered list without its closing tag. */
  lemma RenderUlOpen(xs: seq<string>)
    ensures RenderUl(xs)[..|RenderUl(xs)| - 5] == "<ul>" + Join(ListItems(xs), "\n")
  {
    var inner := Join(ListItems(xs), "\n");
    assert RenderUl(xs) == ("<ul>" + inner) + "</ul>";
  }

  /** Rendering one more item than before. */
  lemma ListItemsAppend(xs: seq<string>, x: string)
    ensures ListItems(xs + [x]) == ListItems(xs) + [ListItem(x)]
  {
    var l := ListItems(xs + [x]);
    var r := ListItems(xs) + [ListItem(x)];
    assert |l| == |r|;
    forall i | 0 <= i < |l| ensures l[i] == r[i] {
      if i < |xs| {
        assert (xs + [x])[i] == xs[i];
      } else {
        assert (xs + [x])[i] == x;
      }
    }
  }

  /** The contents of the rendered list for every input, one item at a time:
      the first item opens the list after `<ul>`, each further item goes on a
      new line before the closing `</ul>`. With `RenderUl([]) == "<ul></ul>"`
      this determines the result whatever the items contain. */
  lemma RenderUlAppend(xs: seq<string>, x: string)
    ensures xs == [] ==> RenderUl(xs + [x]) == "<ul>" + ListItem(x) + "</ul>"
    ensures xs != [] ==> RenderUl(xs + [x]) == RenderUl(xs)[..|RenderUl(xs)| - 5] + "\n" + ListItem(x) + "</ul>"
  {
    var items := ListItems(xs);
    ListItemsAppend(xs, x);
    if xs == [] {
      assert items + [ListItem(x)] == [ListItem(x)];
    } else {
      var inner := Join(items, "\n");
      JoinAppend(items, ListItem(x), "\n");
      RenderUlOpen(xs);
      RegroupClose("<ul>", inner, "\n", ListItem(x), "</ul>");
    }
  }

  /** Items that span lines are not recoverable from the rendered list: any
      two items render exactly like the one item that holds both, joined by
      the closing tag, a newline and the opening tag. */
  lemma TwoItemsLookLikeOne(a: string, b: string)
    ensures RenderUl([a, b]) == RenderUl([a + "</li>" + "\n" + "<li>" + b])
  {
    var two := ListItems([a, b]);
    assert two == [ListItem(a), ListItem(b)];
    assert two[1..] == [ListItem(b)];
    var c := a + "</li>" + "\n" + "<li>" + b;
    var one := ListItems([c]);
    assert one == [ListItem(c)];
    RegroupItems("<li>", a, "</li>", "\n", "<li>", b, "</li>");
    assert Join(two, "\n") == Join(one, "\n");
  }

  /** Python's `s.split(sep)` for a one-character separator. */
  function Split(s: string, sep: char): (r: seq<string>)
    ensures |r| >= 1
  {
    if s == [] then [""]
    else
      var rest := Split(s[1..], sep);
      if s[0] == sep then [""] + rest else [[s[0]] + rest[0]] + rest[1..]
  }

  /** Reads back the item of one rendered list line. */
  function ParseItem(line: string): Option<string>
  {
    if |line| >= 9 && line[..4] == "<li>" && line[|line| - 5..] == "</li>"
    then Some(line[4..|line| - 5]) else None
  }

  function ParseItems(lines: seq<string>): Option<seq<string>>
  {
    if lines == [] then Some([])
    else match (ParseItem(lines[0]), ParseItems(lines[1..]))
      case (Some(x), Some(rest)) => Some([x] + rest)
      case _ => None
  }

  /** Reads back the items of a rendered list. */
  function ParseUl(s: string): Option<seq<string>>
  {
    if |s| < 9 || s[..4] != "<ul>" || s[|s| - 5..] != "</ul>" then None
    else
      var inner := s[4..|s| - 5];
      if inner == "" then Some([]) else ParseItems(Split(inner, '\n'))
  }

  lemma {:induction false} SplitWithoutSeparator(x: string, sep: char)
    requires sep !in x
    ensures Split(x, sep) == [x]
  {
    if x != [] {
      SplitWithoutSeparator(x[1..], sep);
      assert [x[0]] + x[1..] == x;
    }
  }

  lemma {:induction false} SplitAtFirstSeparator(x: string, y: string, sep: char)
    requires sep !in x
    ensures Split(x + [sep] + y, sep) == [x] + Split(y, sep)
  {
    if x == [] {
      assert x + [sep] + y == [sep] + y;
      assert ([sep] + y)[1..] == y;
    } else {
      assert (x + [sep] + y)[1..] == x[1..] + [sep] + y;
      SplitAtFirstSeparator(x[1..], y, sep);
      assert [x[0]] + x[1..] == x;
    }
  }

  /** Splitting a join at its separator gives back the parts, as long as no
      part contains the separator. */
  lemma {:induction false} SplitJoin(xs: seq<string>, sep: char)
    requires xs != []
    requires forall i :: 0 <= i < |xs| ==> sep !in xs[i]
    ensures Split(Join(xs, [sep]), sep) == xs
  {
    if |xs| == 1 {
      SplitWithoutSeparator(xs[0], sep);
    } else {
      var tail := xs[1..];
      var rest := Join(tail, [sep]);
      assert Join(xs, [sep]) == xs[0] + [sep] + rest;
      assert sep !in xs[0];
      SplitAtFirstSeparator(xs[0], rest, sep);
      forall i | 0 <= i < |tail| ensures sep !in tail[i] {
        assert tail[i] == xs[i + 1];
      }
      SplitJoin(tail, sep);
      assert [xs[0]] + tail == xs;
    }
  }

  lemma {:induction false} ParseListItems(xs: seq<string>)
    ensures ParseItems(ListItems(xs)) == Some(xs)
  {
    if xs != [] {
      var line := ListItem(xs[0]);
      assert line[..4] == "<li>" && line[|line| - 5..] == "</li>";
      assert line[4..|line| - 5] == xs[0];
      assert ParseItem(ListItems(xs)[0]) == Some(xs[0]);
      assert ListItems(xs)[1..] == ListItems(xs[1..]);
      ParseListItems(xs[1..]);
      assert [xs[0]] + xs[1..] == xs;
    }
  }

  /** The rendered list determines its items when no item spans lines:
      reading the items back gives exactly the input, in order. */
  lemma RenderUlRoundTrip(xs: seq<string>)
    requires forall i :: 0 <= i < |xs| ==> '\n' !in xs[i]
    ensures ParseUl(RenderUl(xs)) == Some(xs)
  {
    var r := RenderUl(xs);
    var inner := Join(ListItems(xs), "\n");
    assert r[4..|r| - 5] == inner;
    if xs != [] {
      forall i | 0 <= i < |xs| ensures '\n' !in ListItems(xs)[i] {
        assert ListItems(xs)[i] == "<li>" + xs[i] + "</li>";
      }
      SplitJoin(ListItems(xs), '\n');
      ParseListItems(xs);
    }
  }

  const AttachmentIdKey := "id"
  const StatusKey := "status"
  const ContentTypeKey := "contentType"
  const LengthKey := "length"
  const Deleted := "DELETED"

  const ContentsLinkStart := ": <a href=\""
  const ContentsLinkEnd := "\" >Get contents</a>"

  /** The link part of `render_attachment_link`. The attachment's id is read
      first; a deleted attachment gets no link; any other gets a "Get
      contents" link to the URL built from its id, content type and length.
      Each missing entry raises KeyError. */
  function AttachmentLinkPart(attachment: Value, contentsUrl: (Value, Value, Value) -> string): (r: Result<string>)
    ensures r == Ok("") <==> Index(attachment, AttachmentIdKey).Ok? && Index(attachment, StatusKey) == Ok(Str(Deleted))
    ensures r.Ok? && r.value != "" ==>
              && Index(attachment, StatusKey).Ok? && Index(attachment, StatusKey) != Ok(Str(Deleted))
              && Index(attachment, AttachmentIdKey).Ok?
              && Index(attachment, ContentTypeKey).Ok? && Index(attachment, LengthKey).Ok?
              && var url := contentsUrl(Index(attachment, AttachmentIdKey).value,
                                        Index(attachment, ContentTypeKey).value, Index(attachment, LengthKey).value);
              && |r.value| == |ContentsLinkStart| + |url| + |ContentsLinkEnd|
              && r.value[..|ContentsLinkStart|] == ContentsLinkStart
              && r.value[|ContentsLinkStart|..|ContentsLinkStart| + |url|] == url
              && r.value[|r.value| - |ContentsLinkEnd|..] == ContentsLinkEnd
    ensures r.Err? <==> || Index(attachment, AttachmentIdKey).Err?
                        || Index(attachment, StatusKey).Err?
                        || (Index(attachment, StatusKey) != Ok(Str(Deleted))
                            && (Index(attachment, ContentTypeKey).Err? || Index(attachment, LengthKey).Err?))
  {
    match Index(attachment, AttachmentIdKey)
    case Err(e) => Err(e)
    case Ok(id) =>
      match Index(attachment, StatusKey)
      case Err(e) => Err(e)
      case Ok(status) =>
        if status == Str(Deleted) then Ok("")
        else
          match Index(attachment, ContentTypeKey)
          case Err(e) => Err(e)
          case Ok(contentType) =>
            match Index(attachment, LengthKey)
            case Err(e) => Err(e)
            case Ok(length) => Ok(ContentsLinkStart + contentsUrl(id, contentType, length) + ContentsLinkEnd)
  }

  const MoreRecordsStart := "<p><a href='"
  /** The source's literal continues on a new line: the line break is
      escaped, the next line's 28 leading spaces are kept. */
  const MoreRecordsEnd := "'>More records >>" + seq(28, _ => ' ') + "</a></p>"

  /** The "more records" block of `handle_activity`: present exactly when the
      continuation token is not None (an empty token still gets it), and
      then a link to the URL built from that token. */
  function MoreRecords(nextToken: Value, nextLink: Value -> string): (r: string)
    ensures r == "" <==> nextToken == Null
    ensures nextToken != Null ==>
              && |r| == |MoreRecordsStart| + |nextLink(nextToken)| + |MoreRecordsEnd|
              && r[..|MoreRecordsStart|] == MoreRecordsStart
              && r[|MoreRecordsStart|..|MoreRecordsStart| + |nextLink(nextToken)|] == nextLink(nextToken)
              && r[|r| - |MoreRecordsEnd|..] == MoreRecordsEnd
  {
    if nextToken != Null then MoreRecordsStart + nextLink(nextToken) + MoreRecordsEnd else ""
  }

  /** The test is `is not None`, not truth: a falsy token still links on. */
  lemma FalsyTokenStillLinks(nextLink: Value -> string)
    ensures MoreRecords(Str(""), nextLink) != ""
    ensures MoreRecords(Int(0), nextLink) != ""
  {
  }
}
