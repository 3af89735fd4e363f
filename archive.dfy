/** The prompt archive: the Markdown rendering of a captured request and
    which files `save_prompt` writes for the configured formats. Writing to
    disk is outside the model; whether each write succeeds is a parameter. */
module Archive {
  import opened Common
  import opened Json
  import opened Event
  import opened Config

  // ---------------------------------------------------------------------------
  // `format_markdown`
  // ---------------------------------------------------------------------------

  function TitleLine(e: RequestEvent): string { "# " + Capitalize(e.provider) + " Request\n\n" }
  function TimestampLine(e: RequestEvent): string { "- **Timestamp:** " + e.timestamp.display + "\n" }
  function ModelLine(e: RequestEvent): string { "- **Model:** " + e.model + "\n" }
  function TokensLine(e: RequestEvent): string { "- **Tokens:** " + Decimal(e.tokens) + "\n" }
  function PathLine(e: RequestEvent): string { "- **Path:** " + e.path + "\n\n" }
  const MessagesHeading: string := "## Messages\n\n"

  /** Everything before the first message section. */
  function Header(e: RequestEvent): string
  {
    TitleLine(e) + TimestampLine(e) + ModelLine(e) + TokensLine(e) + PathLine(e) + MessagesHeading
  }

  function SectionHeading(m: Message): string { "### " + Capitalize(m.role) + "\n\n" }

  /** The section written for one message. */
  function Section(m: Message): string
  {
    SectionHeading(m) + m.content + "\n\n"
  }

  /** The sections of the messages, in order. */
  function Sections(ms: seq<Message>): string
  {
    if ms == [] then "" else Section(ms[0]) + Sections(ms[1..])
  }

  /** The document `format_markdown` produces. */
  function Markdown(e: RequestEvent): string
  {
    Header(e) + Sections(e.messages)
  }

  lemma {:induction false} SectionsAppend(a: seq<Message>, b: seq<Message>)
    ensures Sections(a + b) == Sections(a) + Sections(b)
  {
    if a == [] {
      assert a + b == b;
    } else {
      assert (a + b)[0] == a[0] && (a + b)[1..] == a[1..] + b;
      SectionsAppend(a[1..], b);
    }
  }

  /** `format_markdown`: the header lines pushed one by one (the first onto
      the empty string), then one section per message. */
  method FormatMarkdown(e: RequestEvent) returns (md: string)
    ensures md == Markdown(e)
  {
    md := TitleLine(e);
    md := md + TimestampLine(e);
    md := md + ModelLine(e);
    md := md + TokensLine(e);
    md := md + PathLine(e);
    md := md + MessagesHeading;
    var ms := e.messages;
    assert ms[0..] == ms;
    for i := 0 to |ms|
      invariant md + Sections(ms[i..]) == Markdown(e)
    {
      ghost var prev := md;
      md := md + SectionHeading(ms[i]);
      md := md + ms[i].content;
      md := md + "\n\n";
      SectionsStep(ms, i);
      Regroup(prev, SectionHeading(ms[i]), ms[i].content, "\n\n", Sections(ms[i + 1..]));
    }
    assert ms[|ms|..] == [];
    assert md + "" == md;
  }

  /** The sections from message `i` on are its section and those after it. */
  lemma SectionsStep(ms: seq<Message>, i: nat)
    requires i < |ms|
    ensures Sections(ms[i..]) == Section(ms[i]) + Sections(ms[i + 1..])
  {
    assert ms[i..][0] == ms[i] && ms[i..][1..] == ms[i + 1..];
  }

  /** The layout of a document made of a title, a timestamp line, a block
      and a body, for arbitrary pieces. */
  lemma DocumentLayout(title: string, stamp: string, block: string, body: string)
    ensures StartsWith(title + stamp + block + body, title)
    ensures OccursAt(title + stamp + block + body, block, |title| + |stamp|)
  {
    var s := title + stamp + block + body;
    assert s == title + (stamp + block + body);
    OccursInMiddle(title + stamp, block, body);
  }

  /** The document opens with the title naming the capitalised provider,
      has the model, token and path lines followed by the "## Messages"
      heading, and after the header holds exactly the message sections. */
  lemma MarkdownLayout(e: RequestEvent)
    ensures StartsWith(Markdown(e), TitleLine(e))
    ensures OccursAt(Markdown(e), ModelLine(e) + TokensLine(e) + PathLine(e) + MessagesHeading,
                     |TitleLine(e)| + |TimestampLine(e)|)
    ensures Markdown(e)[..|Header(e)|] == Header(e)
    ensures Markdown(e)[|Header(e)|..] == Sections(e.messages)
  {
    var block := ModelLine(e) + TokensLine(e) + PathLine(e) + MessagesHeading;
    Regroup(TitleLine(e) + TimestampLine(e), ModelLine(e), TokensLine(e), PathLine(e), MessagesHeading);
    DocumentLayout(TitleLine(e), TimestampLine(e), block, Sections(e.messages));
    SplitAt(Header(e), Sections(e.messages));
  }

  /** In a head followed by the sections, section `i` follows the head and
      the sections before it. */
  lemma DocumentSection(head: string, ms: seq<Message>, i: nat)
    requires i < |ms|
    ensures OccursAt(head + Sections(ms), Section(ms[i]), |head| + |Sections(ms[..i])|)
  {
    SectionsSplit(ms, i);
    OccursInBody(head, Sections(ms[..i]), Section(ms[i]), Sections(ms[i + 1..]));
  }

  lemma OccursInBody(head: string, a: string, x: string, b: string)
    ensures OccursAt(head + (a + x + b), x, |head| + |a|)
  {
    assert head + (a + x + b) == head + a + x + b;
    OccursInMiddle(head + a, x, b);
  }

  /** The sections split around section `i`. */
  lemma SectionsSplit(ms: seq<Message>, i: nat)
    requires i < |ms|
    ensures Sections(ms) == Sections(ms[..i]) + Section(ms[i]) + Sections(ms[i + 1..])
  {
    assert ms == ms[..i] + ms[i..];
    SectionsAppend(ms[..i], ms[i..]);
    SectionsStep(ms, i);
  }

  /** Message `i` has its section right after the header and the sections
      of the messages before it. */
  lemma MarkdownSection(e: RequestEvent, i: nat)
    requires i < |e.messages|
    ensures OccursAt(Markdown(e), Section(e.messages[i]), |Header(e)| + |Sections(e.messages[..i])|)
  {
    DocumentSection(Header(e), e.messages, i);
  }

  /** The source's unit test: an Anthropic request for "claude-3" with one
      user message "Hello!". */
  lemma FormatMarkdownExample(e: RequestEvent)
    requires e.provider == "anthropic" && e.model == "claude-3"
    requires e.messages == [Message("user", "Hello!")]
    ensures Contains(Markdown(e), "# Anthropic Request")
    ensures Contains(Markdown(e), "**Model:** claude-3")
    ensures Contains(Markdown(e), "### User")
    ensures Contains(Markdown(e), "Hello!")
  {
    ExampleTitleIn(e);
    ExampleModelIn(e);
    ExampleSectionIn(e);
  }

  lemma ExampleTitleIn(e: RequestEvent)
    requires e.provider == "anthropic"
    ensures Contains(Markdown(e), "# Anthropic Request")
  {
    MarkdownLayout(e);
    ExampleTitle(e.provider);
    StartsWithTrans(Markdown(e), TitleLine(e), "# Anthropic Request");
  }

  lemma ExampleModelIn(e: RequestEvent)
    requires e.model == "claude-3"
    ensures Contains(Markdown(e), "**Model:** claude-3")
  {
    MarkdownLayout(e);
    var block := ModelLine(e) + TokensLine(e) + PathLine(e) + MessagesHeading;
    var k := |TitleLine(e)| + |TimestampLine(e)|;
    ExampleModel(e.model, TokensLine(e) + PathLine(e) + MessagesHeading);
    OccursWithin(Markdown(e), block, k, "**Model:** claude-3", 2);
    OccursImpliesContains(Markdown(e), "**Model:** claude-3", k + 2);
  }

  lemma ExampleSectionIn(e: RequestEvent)
    requires e.messages == [Message("user", "Hello!")]
    ensures Contains(Markdown(e), "### User")
    ensures Contains(Markdown(e), "Hello!")
  {
    MarkdownSection(e, 0);
    ExampleSection(e.messages[0]);
    var k := |Header(e)| + |Sections(e.messages[..0])|;
    OccursWithin(Markdown(e), Section(e.messages[0]), k, "### User", 0);
    OccursWithin(Markdown(e), Section(e.messages[0]), k, "Hello!", 10);
    OccursImpliesContains(Markdown(e), "### User", k);
    OccursImpliesContains(Markdown(e), "Hello!", k + 10);
  }

  lemma ExampleTitle(provider: string)
    requires provider == "anthropic"
    ensures StartsWith("# " + Capitalize(provider) + " Request\n\n", "# Anthropic Request")
  {
    CapitalizeExamples();
    var t := "# " + Capitalize(provider) + " Request\n\n";
    assert t == "# Anthropic Request" + "\n\n";
    SplitAt("# Anthropic Request", "\n\n");
  }

  lemma ExampleModel(model: string, rest: string)
    requires model == "claude-3"
    ensures OccursAt("- **Model:** " + model + "\n" + rest, "**Model:** claude-3", 2)
  {
    assert "- **Model:** " + model + "\n" + rest == "- " + "**Model:** claude-3" + ("\n" + rest);
    OccursInMiddle("- ", "**Model:** claude-3", "\n" + rest);
  }

  lemma ExampleSection(m: Message)
    requires m == Message("user", "Hello!")
    ensures OccursAt(Section(m), "### User", 0)
    ensures OccursAt(Section(m), "Hello!", 10)
  {
    assert Capitalize("user") == "User";
    assert Section(m) == "" + "### User" + ("\n\n" + "Hello!" + "\n\n");
    OccursInMiddle("", "### User", "\n\n" + "Hello!" + "\n\n");
    assert Section(m) == "### User" + "\n\n" + "Hello!" + "\n\n";
    OccursInMiddle("### User" + "\n\n", "Hello!", "\n\n");
  }

  // ---------------------------------------------------------------------------
  // `save_prompt`: which files are written
  // ---------------------------------------------------------------------------

  /** A file of the archive: the Markdown rendering, or the raw request body
      (written pretty-printed). */
  datatype ArchiveFile = MarkdownFile(path: string, text: string) | JsonFile(path: string, body: Json)

  /** `{timestamp}_{provider}`, the common stem of an event's files. */
  function BaseName(e: RequestEvent): string
  {
    e.timestamp.fileStamp + "_" + e.provider
  }

  predicate IsMarkdownFormat(format: string) { format == "markdown" || format == "md" }

  /** The file one entry of `format` asks for: none for an unknown format. */
  function FileFor(e: RequestEvent, directory: string, format: string): (r: seq<ArchiveFile>)
    ensures |r| <= 1
    ensures IsMarkdownFormat(format) ==> r == [MarkdownFile(JoinPath(directory, BaseName(e) + ".md"), Markdown(e))]
    ensures format == "json" ==> r == [JsonFile(JoinPath(directory, BaseName(e) + ".json"), e.rawBody)]
    ensures !IsMarkdownFormat(format) && format != "json" ==> r == []
  {
    if IsMarkdownFormat(format) then [MarkdownFile(JoinPath(directory, BaseName(e) + ".md"), Markdown(e))]
    else if format == "json" then [JsonFile(JoinPath(directory, BaseName(e) + ".json"), e.rawBody)]
    else []
  }

  /** The files the formats ask for, in the order of the formats. */
  function Planned(e: RequestEvent, directory: string, formats: seq<string>): seq<ArchiveFile>
  {
    if formats == [] then [] else FileFor(e, directory, formats[0]) + Planned(e, directory, formats[1..])
  }

  lemma {:induction false} PlannedAppend(e: RequestEvent, directory: string, a: seq<string>, b: seq<string>)
    ensures Planned(e, directory, a + b) == Planned(e, directory, a) + Planned(e, directory, b)
  {
    if a == [] {
      assert a + b == b;
    } else {
      assert (a + b)[0] == a[0] && (a + b)[1..] == a[1..] + b;
      PlannedAppend(e, directory, a[1..], b);
    }
  }

  /** The plan around entry `i`: the files of the entries before it, its own
      file (if any), and the files of the entries after it. */
  lemma PlannedSplit(e: RequestEvent, directory: string, formats: seq<string>, i: nat)
    requires i < |formats|
    ensures Planned(e, directory, formats)
            == Planned(e, directory, formats[..i]) + FileFor(e, directory, formats[i])
               + Planned(e, directory, formats[i + 1..])
  {
    assert formats == formats[..i] + formats[i..];
    PlannedAppend(e, directory, formats[..i], formats[i..]);
    assert formats[i..][0] == formats[i] && formats[i..][1..] == formats[i + 1..];
  }

  /** The plan of the first `i + 1` entries extends that of the first `i`. */
  lemma PlannedPrefixStep(e: RequestEvent, directory: string, formats: seq<string>, i: nat)
    requires i < |formats|
    ensures Planned(e, directory, formats[..i + 1])
            == Planned(e, directory, formats[..i]) + FileFor(e, directory, formats[i])
  {
    assert formats[..i + 1] == formats[..i] + [formats[i]];
    PlannedAppend(e, directory, formats[..i], [formats[i]]);
    assert [formats[i]][1..] == [];
  }

  /** Every planned file is the `.md` file holding the Markdown document or
      the `.json` file holding the raw body, under the archive directory;
      there is at most one file per format entry. */
  lemma {:induction false} PlannedShape(e: RequestEvent, directory: string, formats: seq<string>)
    ensures |Planned(e, directory, formats)| <= |formats|
    ensures forall k :: 0 <= k < |Planned(e, directory, formats)| ==>
              Planned(e, directory, formats)[k]
                in {MarkdownFile(JoinPath(directory, BaseName(e) + ".md"), Markdown(e)),
                    JsonFile(JoinPath(directory, BaseName(e) + ".json"), e.rawBody)}
  {
    if formats != [] {
      PlannedShape(e, directory, formats[1..]);
    }
  }

  /** Each recognised format entry gets its file; unrecognised entries are
      skipped without affecting the others. */
  lemma PlannedComplete(e: RequestEvent, directory: string, formats: seq<string>, i: nat)
    requires i < |formats|
    ensures FileFor(e, directory, formats[i]) == []
            ==> Planned(e, directory, formats) == Planned(e, directory, formats[..i] + formats[i + 1..])
    ensures forall f :: f in FileFor(e, directory, formats[i]) ==> f in Planned(e, directory, formats)
  {
    PlannedSplit(e, directory, formats, i);
    PlannedAppend(e, directory, formats[..i], formats[i + 1..]);
    Splice(Planned(e, directory, formats[..i]), FileFor(e, directory, formats[i]),
           Planned(e, directory, formats[i + 1..]));
  }

  /** With the default formats, one Markdown and one JSON file are written. */
  lemma DefaultFormatsPlan(e: RequestEvent, directory: string, formats: seq<string>)
    requires formats == DefaultConfig().archive.format
    ensures Planned(e, directory, formats) ==
              [MarkdownFile(JoinPath(directory, BaseName(e) + ".md"), Markdown(e)),
               JsonFile(JoinPath(directory, BaseName(e) + ".json"), e.rawBody)]
  {
    assert formats == ["markdown", "json"];
    assert formats[1..] == ["json"] && formats[1..][1..] == [];
    assert !IsMarkdownFormat("json");
    assert Planned(e, directory, formats[1..]) == FileFor(e, directory, "json") + [];
  }

  /** `save_prompt`: for each format entry the file is written; an unknown
      entry is skipped; the first failed write ends the call with an error.
      Returns the files written, in order, and whether the call succeeded:
      the written files are a prefix of the plan, all accepted, and either
      the whole plan or cut short by the one write that failed. */
  method SavePrompt(e: RequestEvent, directory: string, formats: seq<string>, writeOk: ArchiveFile -> bool)
    returns (written: seq<ArchiveFile>, ok: bool)
    ensures |written| <= |Planned(e, directory, formats)|
    ensures written == Planned(e, directory, formats)[..|written|]
    ensures forall k :: 0 <= k < |written| ==> writeOk(written[k])
    ensures ok <==> |written| == |Planned(e, directory, formats)|
    ensures !ok ==> !writeOk(Planned(e, directory, formats)[|written|])
  {
    written := [];
    var base := BaseName(e);
    for i := 0 to |formats|
      invariant written == Planned(e, directory, formats[..i])
      invariant forall k :: 0 <= k < |written| ==> writeOk(written[k])
    {
      PlannedPrefixStep(e, directory, formats, i);
      var file: ArchiveFile;
      var format := formats[i];
      if format == "markdown" || format == "md" {
        var content := FormatMarkdown(e);
        file := MarkdownFile(JoinPath(directory, base + ".md"), content);
      } else if format == "json" {
        file := JsonFile(JoinPath(directory, base + ".json"), e.rawBody);
      } else {
        continue;
      }
      if !writeOk(file) {
        PlannedSplit(e, directory, formats, i);
        return written, false;
      }
      written := written + [file];
    }
    assert formats[..|formats|] == formats;
    ok := true;
  }
}
