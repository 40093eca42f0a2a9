/**
 * The markdown-to-Confluence-storage converter and the page lookup shared by the two
 * wiki publishers: headings, bold and italic are rewritten line by line, a list pass
 * groups bullet lines into `<ul>` blocks, and inline code spans are rewritten last.
 */
module ConfluenceStorage {
  import opened Outcomes
  import opened Errors
  import opened Text
  import opened JsonValue
  import opened Paging

  // ---------------------------------------------------------------- inline rewrites

  /**
   * The three heading substitutions (`^### `, then `^## `, then `^# `) on one line. A
   * rewritten line starts with `<`, so a later substitution never touches it again.
   */
  function HeadingLine(line: string): string {
    if StartsWith(line, "### ") then "<h3>" + line[4..] + "</h3>"
    else if StartsWith(line, "## ") then "<h2>" + line[3..] + "</h2>"
    else if StartsWith(line, "# ") then "<h1>" + line[2..] + "</h1>"
    else line
  }

  /** `# ` opens a level-one heading. */
  lemma HeadingOne(t: string)
    ensures HeadingLine("# " + t) == "<h1>" + t + "</h1>"
  {
    var line := "# " + t;
    assert line[1] == ' ';
    assert !StartsWith(line, "### ") && !StartsWith(line, "## ") by {
      if |line| >= 3 {
        assert line[..3][1] == ' ';
      }
    }
    assert line[2..] == t;
  }

  /** `## ` opens a level-two heading. */
  lemma HeadingTwo(t: string)
    ensures HeadingLine("## " + t) == "<h2>" + t + "</h2>"
  {
    var line := "## " + t;
    assert line[2] == ' ';
    assert !StartsWith(line, "### ") by {
      if |line| >= 4 {
        assert line[..4][2] == ' ';
      }
    }
    assert line[..3] == "## ";
    assert line[3..] == t;
  }

  /** `### ` opens a level-three heading. */
  lemma HeadingThree(t: string)
    ensures HeadingLine("### " + t) == "<h3>" + t + "</h3>"
  {
    var line := "### " + t;
    assert line[..4] == "### ";
    assert line[4..] == t;
  }

  /** A line that does not start with `#` is not a heading. */
  lemma NoHeading(line: string)
    requires line == [] || line[0] != '#'
    ensures HeadingLine(line) == line
  {
    if line != [] {
      assert !StartsWith(line, "# ") && !StartsWith(line, "## ") && !StartsWith(line, "### ") by {
        if |line| >= 2 {
          assert line[..2][0] == line[0];
        }
        if |line| >= 3 {
          assert line[..3][0] == line[0];
        }
        if |line| >= 4 {
          assert line[..4][0] == line[0];
        }
      }
    }
  }

  /** The index of the first `**` in `s`, or |s| when there is none. */
  function PairAt(s: string): (k: nat)
    ensures k <= |s|
    ensures k < |s| ==> k + 1 < |s| && s[k] == '*' && s[k + 1] == '*'
    ensures forall j :: 0 <= j < k && j + 1 < |s| ==> !(s[j] == '*' && s[j + 1] == '*')
  {
    if |s| < 2 then |s| else if s[0] == '*' && s[1] == '*' then 0 else 1 + PairAt(s[1..])
  }

  /**
   * The bold substitution `\*\*(.*?)\*\*` on one line: left to right, each `**` that has a
   * later `**` on the line opens the shortest span up to it; an unmatched `**` is kept and
   * the scan resumes one character later.
   */
  function Bold(line: string): (r: string)
    ensures '*' !in line ==> r == line
    ensures '\n' !in line ==> '\n' !in r
    decreases |line|
  {
    if |line| < 2 then line
    else if line[0] == '*' && line[1] == '*' && PairAt(line[2..]) < |line| - 2 then
      var k := PairAt(line[2..]);
      "<strong>" + line[2..2 + k] + "</strong>" + Bold(line[4 + k..])
    else [line[0]] + Bold(line[1..])
  }

  /**
   * The italic substitution `\*(.*?)\*` on one line: each `*` that has a later `*` on the
   * line opens a span up to the next one.
   */
  function Italic(line: string): (r: string)
    ensures '*' !in line ==> r == line
    ensures '\n' !in line ==> '\n' !in r
    decreases |line|
  {
    if line == [] then line
    else if line[0] == '*' && Find(line[1..], '*') < |line| - 1 then
      var k := Find(line[1..], '*');
      "<em>" + line[1..1 + k] + "</em>" + Italic(line[2 + k..])
    else [line[0]] + Italic(line[1..])
  }

  lemma CountConcat(a: string, b: string, c: char)
    ensures Count(a + b, c) == Count(a, c) + Count(b, c)
  {
    if a != [] {
      assert (a + b)[0] == a[0];
      assert (a + b)[1..] == a[1..] + b;
      CountConcat(a[1..], b, c);
    } else {
      assert a + b == b;
    }
  }

  lemma CountAbsent(s: string, c: char)
    requires c !in s
    ensures Count(s, c) == 0
  {
  }

  /** After the italic pass a line holds at most one `*`: every other one was paired into a span. */
  lemma {:induction false} ItalicLeavesOneStar(line: string)
    ensures Count(Italic(line), '*') <= 1
    decreases |line|
  {
    if line != [] {
      if line[0] == '*' && Find(line[1..], '*') < |line| - 1 {
        var k := Find(line[1..], '*');
        var mid := line[1..1 + k];
        assert '*' !in mid by {
          forall j | 0 <= j < |mid| ensures mid[j] != '*' {
            assert mid[j] == line[1..][j];
          }
        }
        ItalicLeavesOneStar(line[2 + k..]);
        CountAbsent(mid, '*');
        CountAbsent("<em>", '*');
        CountAbsent("</em>", '*');
        CountConcat("<em>" + mid, "</em>", '*');
        CountConcat("<em>", mid, '*');
        CountConcat("<em>" + mid + "</em>", Italic(line[2 + k..]), '*');
      } else {
        ItalicLeavesOneStar(line[1..]);
        CountConcat([line[0]], Italic(line[1..]), '*');
        if line[0] == '*' {
          assert '*' !in line[1..] by {
            forall j | 0 <= j < |line[1..]| ensures line[1..][j] != '*' {
              assert j < Find(line[1..], '*');
            }
          }
          CountAbsent(line[1..], '*');
        }
      }
    }
  }

  /** Bold runs before italic: a `**` pair around star-free text becomes strong, not nested emphasis. */
  lemma BoldBeforeItalic(t: string)
    requires '*' !in t
    ensures Italic(Bold("**" + t + "**")) == "<strong>" + t + "</strong>"
  {
    var line := "**" + t + "**";
    assert line[2..] == t + "**";
    assert PairAt(t + "**") == |t| by {
      PairAtAfter(t);
    }
    assert line[2..2 + |t|] == t;
    assert line[4 + |t|..] == [];
    var r := "<strong>" + t + "</strong>";
    assert '*' !in r by {
      forall j | 0 <= j < |r| ensures r[j] != '*' {
        if 8 <= j < 8 + |t| {
          assert r[j] == t[j - 8];
        }
      }
    }
  }

  lemma {:induction false} PairAtAfter(t: string)
    requires '*' !in t
    ensures PairAt(t + "**") == |t|
    decreases |t|
  {
    if t != [] {
      assert (t + "**")[1..] == t[1..] + "**";
      PairAtAfter(t[1..]);
    }
  }

  /** The inline-code substitution `` `([^`]+)` `` over the whole document; a span may cross lines. */
  function Code(s: string): (r: string)
    ensures '`' !in s ==> r == s
    decreases |s|
  {
    if s == [] then s
    else if s[0] == '`' && 0 < Find(s[1..], '`') < |s| - 1 then
      var k := Find(s[1..], '`');
      "<code>" + s[1..1 + k] + "</code>" + Code(s[2 + k..])
    else [s[0]] + Code(s[1..])
  }

  /** A back-quoted non-empty span in back-quote-free text becomes one code element. */
  lemma {:induction false} CodeWraps(pre: string, a: string, post: string)
    requires '`' !in pre && '`' !in a && '`' !in post && a != []
    ensures Code(pre + ("`" + a + "`" + post)) == pre + ("<code>" + a + "</code>" + post)
    decreases |pre|
  {
    if pre == [] {
      CodeSpan(a, post);
      assert pre + ("`" + a + "`" + post) == "`" + a + "`" + post;
    } else {
      var s := pre + ("`" + a + "`" + post);
      assert s[0] == pre[0] && s[1..] == pre[1..] + ("`" + a + "`" + post);
      CodeWraps(pre[1..], a, post);
      assert Code(s) == [pre[0]] + Code(s[1..]);
    }
  }

  lemma CodeSpan(a: string, post: string)
    requires '`' !in a && '`' !in post && a != []
    ensures Code("`" + a + "`" + post) == "<code>" + a + "</code>" + post
  {
    var s := "`" + a + "`" + post;
    assert s[0] == '`';
    assert s[1..] == a + "`" + post;
    FindFirst(a + "`" + post, '`', |a|);
    assert s[1..1 + |a|] == a;
    assert s[2 + |a|..] == post;
  }

  /** The inline rewrites of one line, in the converter's order. */
  function InlineLine(line: string): string {
    Italic(Bold(HeadingLine(line)))
  }

  function InlineLines(lines: seq<string>): (r: seq<string>)
    ensures |r| == |lines| && forall i :: 0 <= i < |lines| ==> r[i] == InlineLine(lines[i])
  {
    seq(|lines|, i requires 0 <= i < |lines| => InlineLine(lines[i]))
  }

  // ---------------------------------------------------------------- the list pass

  /** What the list pass sees in a line: a bullet item, a paragraph, or a blank line. */
  datatype MdLine = Item(content: string) | Para(line: string) | Blank

  /**
   * A line is an item exactly when its stripped form starts with `- ` or `* `; the item
   * text is the stripped line without those two characters. Other lines are paragraphs
   * unless they strip to nothing.
   */
  function ClassifyMd(line: string): (l: MdLine)
    ensures l.Item? <==> StartsWith(Strip(line), "- ") || StartsWith(Strip(line), "* ")
    ensures l.Item? ==> l.content == Strip(line)[2..]
    ensures l.Para? ==> l.line == line && Strip(line) != ""
    ensures l.Blank? ==> Strip(line) == ""
  {
    var t := Strip(line);
    if StartsWith(t, "- ") || StartsWith(t, "* ") then Item(t[2..])
    else if t != "" then Para(line)
    else Blank
  }

  function ClassifyLines(lines: seq<string>): (ls: seq<MdLine>)
    ensures |ls| == |lines| && forall i :: 0 <= i < |lines| ==> ls[i] == ClassifyMd(lines[i])
  {
    seq(|lines|, i requires 0 <= i < |lines| => ClassifyMd(lines[i]))
  }

  /** The output line of one input line. */
  function Render(l: MdLine): string {
    match l
    case Item(c) => "<li>" + c + "</li>"
    case Para(line) => "<p>" + line + "</p>"
    case Blank => "<p></p>"
  }

  /** The list pass from `ls` on, with a list open or not. */
  function ListFrom(ls: seq<MdLine>, inList: bool): seq<string>
    decreases |ls|
  {
    if ls == [] then (if inList then ["</ul>"] else [])
    else if ls[0].Item? then
      (if inList then [] else ["<ul>"]) + [Render(ls[0])] + ListFrom(ls[1..], true)
    else
      (if inList then ["</ul>"] else []) + [Render(ls[0])] + ListFrom(ls[1..], false)
  }

  /** The number of bullet runs from `ls` on that open a new list. */
  function RunStarts(ls: seq<MdLine>, inList: bool): nat
    decreases |ls|
  {
    if ls == [] then 0
    else (if ls[0].Item? && !inList then 1 else 0) + RunStarts(ls[1..], ls[0].Item?)
  }

  /** The list pass writes one line per input line, plus an opening and a closing tag per run. */
  lemma {:induction false} ListLength(ls: seq<MdLine>, inList: bool)
    ensures |ListFrom(ls, inList)| == |ls| + 2 * RunStarts(ls, inList) + (if inList then 1 else 0)
    decreases |ls|
  {
    if ls != [] {
      ListLength(ls[1..], ls[0].Item?);
    }
  }

  predicate IsLi(x: string) {
    |x| >= 4 && x[..4] == "<li>"
  }

  /**
   * `<ul>` and `</ul>` alternate, starting with `<ul>` when no list is open, and the last
   * list is closed; list items stand exactly inside the lists.
   */
  predicate Nested(out: seq<string>, open: bool)
    decreases |out|
  {
    if out == [] then !open
    else if out[0] == "<ul>" then !open && Nested(out[1..], true)
    else if out[0] == "</ul>" then open && Nested(out[1..], false)
    else IsLi(out[0]) == open && Nested(out[1..], open)
  }

  lemma RenderIsNoTag(l: MdLine)
    ensures Render(l) != "<ul>" && Render(l) != "</ul>"
    ensures IsLi(Render(l)) <==> l.Item?
  {
    var r := Render(l);
    assert |r| >= 7;
    if !l.Item? {
      assert r[1] == 'p';
    }
  }

  /** The list pass never nests lists, balances them, and puts exactly the items inside. */
  lemma {:induction false} ListNested(ls: seq<MdLine>, inList: bool)
    ensures Nested(ListFrom(ls, inList), inList)
    decreases |ls|
  {
    if ls == [] {
      if inList {
        assert Nested(["</ul>"][1..], false);
      }
    } else {
      var rest := ListFrom(ls[1..], ls[0].Item?);
      var r := Render(ls[0]);
      var tail := [r] + rest;
      RenderIsNoTag(ls[0]);
      ListNested(ls[1..], ls[0].Item?);
      assert tail[0] == r && tail[1..] == rest;
      assert Nested(tail, ls[0].Item?);
      var tags := Tags(ls[0], inList);
      ListFromCons(ls, inList);
      if tags != [] {
        assert (tags + tail)[0] == tags[0] && (tags + tail)[1..] == tail;
      }
    }
  }

  /** The output without its list tags. */
  function Untagged(out: seq<string>): seq<string>
    decreases |out|
  {
    if out == [] then []
    else if out[0] == "<ul>" || out[0] == "</ul>" then Untagged(out[1..])
    else [out[0]] + Untagged(out[1..])
  }

  function RenderAll(ls: seq<MdLine>): (r: seq<string>)
    ensures |r| == |ls| && forall i :: 0 <= i < |ls| ==> r[i] == Render(ls[i])
  {
    seq(|ls|, i requires 0 <= i < |ls| => Render(ls[i]))
  }

  lemma UntaggedConcat(a: seq<string>, b: seq<string>)
    ensures Untagged(a + b) == Untagged(a) + Untagged(b)
    decreases |a|
  {
    if a != [] {
      assert (a + b)[0] == a[0];
      assert (a + b)[1..] == a[1..] + b;
      UntaggedConcat(a[1..], b);
      if a[0] != "<ul>" && a[0] != "</ul>" {
        assert Untagged(a + b) == [a[0]] + (Untagged(a[1..]) + Untagged(b));
      }
    } else {
      assert a + b == b;
    }
  }

  lemma UntaggedStep(tags: seq<string>, r: string, rest: seq<string>)
    requires tags == [] || tags == ["<ul>"] || tags == ["</ul>"]
    requires r != "<ul>" && r != "</ul>"
    ensures Untagged(tags + ([r] + rest)) == [r] + Untagged(rest)
  {
    var tail := [r] + rest;
    assert tail[0] == r && tail[1..] == rest;
    if tags != [] {
      assert (tags + tail)[0] == tags[0] && (tags + tail)[1..] == tail;
    } else {
      assert tags + tail == tail;
    }
  }

  /** Apart from the list tags, the output is each input line rendered, in order. */
  lemma {:induction false} ListContent(ls: seq<MdLine>, inList: bool)
    ensures Untagged(ListFrom(ls, inList)) == RenderAll(ls)
    decreases |ls|
  {
    if ls == [] {
      if inList {
        assert Untagged(["</ul>"]) == Untagged([]);
      }
    } else {
      var r := Render(ls[0]);
      var rest := ListFrom(ls[1..], ls[0].Item?);
      RenderIsNoTag(ls[0]);
      ListContent(ls[1..], ls[0].Item?);
      ListFromCons(ls, inList);
      UntaggedStep(Tags(ls[0], inList), r, rest);
      RenderAllCons(ls);
    }
  }

  lemma ListFromCons(ls: seq<MdLine>, inList: bool)
    requires ls != []
    ensures ListFrom(ls, inList) == Tags(ls[0], inList) + ([Render(ls[0])] + ListFrom(ls[1..], ls[0].Item?))
  {
  }

  lemma RenderAllCons(ls: seq<MdLine>)
    requires ls != []
    ensures RenderAll(ls) == [Render(ls[0])] + RenderAll(ls[1..])
  {
  }

  /** What the list pass writes for its first line: any tag the line's kind calls for, then the line. */
  function Tags(l: MdLine, inList: bool): seq<string> {
    if l.Item? then (if inList then [] else ["<ul>"]) else (if inList then ["</ul>"] else [])
  }

  lemma ListStep(ls: seq<MdLine>, i: nat, inList: bool)
    requires i < |ls|
    ensures ListFrom(ls[i..], inList) == Tags(ls[i], inList) + [Render(ls[i])] + ListFrom(ls[i + 1..], ls[i].Item?)
  {
    assert ls[i..][0] == ls[i] && ls[i..][1..] == ls[i + 1..];
  }

  /** The body of the list pass for one classified line: what it appends, and whether a list is open after it. */
  method EmitLine(l: MdLine, inList: bool) returns (out: seq<string>, nowInList: bool)
    ensures out == Tags(l, inList) + [Render(l)]
    ensures nowInList == l.Item?
  {
    out := [];
    nowInList := inList;
    if l.Item? {
      if !nowInList {
        out := out + ["<ul>"];
        nowInList := true;
      }
      out := out + ["<li>" + l.content + "</li>"];
    } else {
      if nowInList {
        out := out + ["</ul>"];
        nowInList := false;
      }
      if l.Para? {
        out := out + ["<p>" + l.line + "</p>"];
      } else {
        out := out + ["<p></p>"];
      }
    }
  }

  /**
   * The list pass of `md_to_storage_format`. Each line is classified by its stripped form
   * first; the loop then opens and closes the lists.
   */
  method ListPass(lines: seq<string>) returns (result: seq<string>)
    ensures result == ListFrom(ClassifyLines(lines), false)
  {
    var ls := ClassifyLines(lines);
    var inList := false;
    result := [];
    var i := 0;
    while i < |ls|
      invariant 0 <= i <= |ls|
      invariant result + ListFrom(ls[i..], inList) == ListFrom(ls, false)
    {
      ListStep(ls, i, inList);
      var out;
      out, inList := EmitLine(ls[i], inList);
      result := result + out;
      i := i + 1;
    }
    assert ls[i..] == [];
    if inList {
      result := result + ["</ul>"];
    }
  }

  // ---------------------------------------------------------------- the converter

  /**
   * The storage-format text of a document. Neither the heading patterns nor `.` in the
   * bold and italic patterns match a line break, so those rewrites act on each line alone.
   */
  function StorageHtml(md: string): string {
    Code(Join(ListFrom(ClassifyLines(InlineLines(Split(md, '\n'))), false), "\n"))
  }

  /** The number of lines the list pass writes for a document. */
  lemma StorageLineCount(md: string)
    ensures var lines := InlineLines(Split(md, '\n'));
      |ListFrom(ClassifyLines(lines), false)| == |Split(md, '\n')| + 2 * RunStarts(ClassifyLines(lines), false)
  {
    ListLength(ClassifyLines(InlineLines(Split(md, '\n'))), false);
  }

  /** A page body in storage representation, with the fields an update or a parent adds. */
  datatype Payload = Payload(
    kind: string, title: string, space: string, html: string, representation: string,
    version: Option<int>, id: Option<Json>, ancestors: Option<Json>)

  /** The dict `md_to_storage_format` returns. */
  function StoragePage(title: string, space: string, html: string): (p: Payload)
    ensures p.kind == "page" && p.representation == "storage"
    ensures p.title == title && p.space == space && p.html == html
    ensures p.version.None? && p.id.None? && p.ancestors.None?
  {
    Payload("page", title, space, html, "storage", None, None, None)
  }

  /** `md_to_storage_format`: inline rewrites, the list pass, then code spans. */
  method MdToStorageFormat(md: string, title: string, space: string) returns (p: Payload)
    ensures p == StoragePage(title, space, StorageHtml(md))
  {
    var lines := InlineLines(Split(md, '\n'));
    var result := ListPass(lines);
    p := StoragePage(title, space, Code(Join(result, "\n")));
  }

  /**
   * The quirk of rewriting emphasis before the list pass: a `* ` bullet with a second `*`
   * on its line becomes emphasis and is no longer an item.
   */
  lemma StarBulletWithSecondStar(a: string, b: string)
    requires '*' !in a && '*' !in b
    ensures Italic("*" + (" " + a) + "*" + b) == "<em>" + (" " + a) + "</em>" + b
    ensures !ClassifyMd(Italic("*" + (" " + a) + "*" + b)).Item?
  {
    ItalicPair(" " + a, b);
    TagLineIsNoItem("<em>" + (" " + a) + "</em>" + b);
  }

  /** Two stars around star-free text, followed by star-free text, make one emphasis span. */
  lemma ItalicPair(x: string, b: string)
    requires '*' !in x && '*' !in b
    ensures Italic("*" + x + "*" + b) == "<em>" + x + "</em>" + b
  {
    var line := "*" + x + "*" + b;
    assert line[1..] == x + "*" + b;
    FindFirst(x + "*" + b, '*', |x|);
    assert line[1..1 + |x|] == x;
    assert line[2 + |x|..] == b;
    ItalicOpens(line, |x|);
  }

  lemma ItalicOpens(line: string, k: nat)
    requires line != [] && line[0] == '*' && k < |line| - 1 && Find(line[1..], '*') == k
    ensures Italic(line) == "<em>" + line[1..1 + k] + "</em>" + Italic(line[2 + k..])
  {
  }

  /** A line starting with `<` is never a list item. */
  lemma TagLineIsNoItem(r: string)
    requires r != [] && r[0] == '<'
    ensures !ClassifyMd(r).Item?
  {
    StripKeepsFirst(r);
    var t := Strip(r);
    assert !StartsWith(t, "- ") && !StartsWith(t, "* ") by {
      if |t| >= 2 {
        assert t[..2][0] == '<';
      }
    }
  }

  /** A line starting with a non-space character keeps that character first when stripped. */
  lemma StripKeepsFirst(s: string)
    requires s != [] && !IsSpace(s[0])
    ensures Strip(s) != [] && Strip(s)[0] == s[0]
  {
    assert LeadingBy(s, IsSpace) == 0;
  }

  // ---------------------------------------------------------------- page lookup

  /** The page title both publishers give a version's notes. */
  function PageTitle(version: string): (t: string)
    ensures StartsWith(t, "Release Notes - ") && t[|"Release Notes - "|..] == version
  {
    "Release Notes - " + version
  }

  /** The search request of `find_existing_page`. */
  function PageLookupRequest(base: string, space: string, title: string): (q: Request)
    ensures q.url == base + "/wiki/rest/api/content"
    ensures q.params.Keys == {"spaceKey", "title", "expand"}
  {
    Request(base + "/wiki/rest/api/content",
      map["spaceKey" := PStr(space), "title" := PStr(title), "expand" := PStr("version")])
  }

  /**
   * `find_existing_page` after its request: on status 200 the `id` of the first search
   * result; a failed request, another status, no results or any shape that makes the
   * lookups raise give None (JNull).
   */
  function ExistingPageId(answer: Result<Reply<Json>, Error>): (id: Json)
    ensures (answer.Err? || answer.value.status != 200) ==> id == JNull
    ensures id != JNull ==>
              && answer.Ok? && answer.value.status == 200
              && answer.value.body.JObj? && "results" in answer.value.body.fields
              && var results := answer.value.body.fields["results"];
                 && results.JArr? && results.items != []
                 && results.items[0].JObj? && "id" in results.items[0].fields
                 && id == results.items[0].fields["id"]
    ensures (&& answer.Ok? && answer.value.status == 200
             && answer.value.body.JObj? && "results" in answer.value.body.fields
             && var results := answer.value.body.fields["results"];
                && results.JArr? && results.items != []
                && results.items[0].JObj? && "id" in results.items[0].fields)
            ==> id == answer.value.body.fields["results"].items[0].fields["id"]
  {
    if answer.Err? || answer.value.status != 200 then JNull
    else
      match answer.value.body
      case JObj(m) =>
        var results := Field(m, "results", JArr([]));
        if results.JArr? && results.items != [] && results.items[0].JObj? then
          Field(results.items[0].fields, "id", JNull)
        else JNull
      case _ => JNull
  }
}
