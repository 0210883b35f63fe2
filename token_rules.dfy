/** Output budgeting for generated blueprints: the step summary contract that each
    generation step reports, and the compact mode that replaces a long file by a
    short manifest of its class and function definitions. */
module TokenRules {
  import opened Text
  import BlueprintVerifier

  // ---------------------------------------------------------------------------
  // The step summary contract

  /** The keys of the summary's dictionary form. */
  const SummaryKeys: set<string> := {"FILES_CHANGED", "PUBLIC_INTERFACES", "ENV_VARS", "NEXT_TODO", "KNOWN_LIMITATIONS"}

  /** `"    - " + item` for each item, in order. */
  function Bullets(items: seq<string>): seq<string>
  {
    if items == [] then [] else Bullets(items[..|items| - 1]) + ["    - " + items[|items| - 1]]
  }

  /** The lines of the text form of a summary given as its dictionary form. */
  function SummaryLines(d: map<string, seq<string>>): seq<string>
    requires SummaryKeys <= d.Keys
  {
    ["STEP_SUMMARY_CONTRACT:",
     "  FILES_CHANGED: " + Join(", ", d["FILES_CHANGED"]),
     "  PUBLIC_INTERFACES: " + Join(", ", d["PUBLIC_INTERFACES"]),
     "  ENV_VARS: " + Join(", ", d["ENV_VARS"]),
     "  NEXT_TODO:"]
    + Bullets(d["NEXT_TODO"])
    + ["  KNOWN_LIMITATIONS:"]
    + Bullets(d["KNOWN_LIMITATIONS"])
  }

  /** The summary a generation step reports: five lists that callers fill in. */
  class StepSummaryContract {
    var filesChanged: seq<string>
    var publicInterfaces: seq<string>
    var envVars: seq<string>
    var nextTodo: seq<string>
    var knownLimitations: seq<string>

    /** A new summary has five empty lists. */
    constructor()
      ensures filesChanged == [] && publicInterfaces == [] && envVars == []
      ensures nextTodo == [] && knownLimitations == []
    {
      filesChanged := [];
      publicInterfaces := [];
      envVars := [];
      nextTodo := [];
      knownLimitations := [];
    }

    /** `to_dict`: exactly the five upper-case keys, each mapped to its list. */
    function ToDict(): (d: map<string, seq<string>>)
      reads this
      ensures d.Keys == SummaryKeys
      ensures d["FILES_CHANGED"] == filesChanged && d["PUBLIC_INTERFACES"] == publicInterfaces
      ensures d["ENV_VARS"] == envVars && d["NEXT_TODO"] == nextTodo
      ensures d["KNOWN_LIMITATIONS"] == knownLimitations
    {
      map["FILES_CHANGED" := filesChanged,
          "PUBLIC_INTERFACES" := publicInterfaces,
          "ENV_VARS" := envVars,
          "NEXT_TODO" := nextTodo,
          "KNOWN_LIMITATIONS" := knownLimitations]
    }

    /** `to_text`: the dictionary form laid out line by line, starting with the
        contract's title, the to-do items and limitations one per line. */
    method ToText() returns (text: string)
      ensures text == Join("\n", SummaryLines(ToDict()))
      ensures StartsWith(text, "STEP_SUMMARY_CONTRACT:")
    {
      var lines := ["STEP_SUMMARY_CONTRACT:",
                    "  FILES_CHANGED: " + Join(", ", filesChanged),
                    "  PUBLIC_INTERFACES: " + Join(", ", publicInterfaces),
                    "  ENV_VARS: " + Join(", ", envVars),
                    "  NEXT_TODO:"];
      lines := AppendBullets(lines, nextTodo);
      lines := lines + ["  KNOWN_LIMITATIONS:"];
      lines := AppendBullets(lines, knownLimitations);
      text := Join("\n", lines);
      JoinStartsWithHead(lines);
    }
  }

  /** The loop appending one bullet per item. */
  method AppendBullets(lines0: seq<string>, items: seq<string>) returns (lines: seq<string>)
    ensures lines == lines0 + Bullets(items)
  {
    lines := lines0;
    for i := 0 to |items|
      invariant lines == lines0 + Bullets(items[..i])
    {
      assert items[..i + 1][..i] == items[..i];
      lines := lines + ["    - " + items[i]];
    }
    assert items[..|items|] == items;
  }

  /** A join starts with its first part. */
  lemma JoinStartsWithHead(lines: seq<string>)
    requires |lines| >= 1
    ensures StartsWith(Join("\n", lines), lines[0])
  {
    if |lines| > 1 {
      assert Join("\n", lines) == lines[0] + ("\n" + Join("\n", lines[1..]));
    }
  }

  lemma {:induction false} BulletsSpec(items: seq<string>)
    ensures |Bullets(items)| == |items|
    ensures forall k :: 0 <= k < |items| ==> Bullets(items)[k] == "    - " + items[k]
  {
    if items != [] {
      BulletsSpec(items[..|items| - 1]);
    }
  }

  lemma {:induction false} BulletsAreLines(items: seq<string>)
    requires AllLines(items)
    ensures AllLines(Bullets(items))
  {
    if items != [] {
      var init := items[..|items| - 1];
      assert AllLines(init) by {
        assert forall k :: 0 <= k < |init| ==> init[k] == items[k];
      }
      BulletsAreLines(init);
      assert IsLine("    - ");
      ConcatIsLine("    - ", items[|items| - 1]);
      AllLinesAppend(Bullets(init), ["    - " + items[|items| - 1]]);
    }
  }

  /** A labelled, comma-separated list of lines is a line. */
  lemma FieldIsLine(title: string, items: seq<string>)
    requires IsLine(title) && AllLines(items)
    ensures IsLine(title + Join(", ", items))
  {
    assert IsLine(", ");
    JoinIsLine(", ", items);
    ConcatIsLine(title, Join(", ", items));
  }

  /** The five lists of a summary hold no newline. */
  predicate SummaryEntriesAreLines(d: map<string, seq<string>>)
    requires SummaryKeys <= d.Keys
  {
    AllLines(d["FILES_CHANGED"]) && AllLines(d["PUBLIC_INTERFACES"]) && AllLines(d["ENV_VARS"])
    && AllLines(d["NEXT_TODO"]) && AllLines(d["KNOWN_LIMITATIONS"])
  }

  /** A summary whose entries hold no newline prints as exactly
      6 + |next_todo| + |known_limitations| lines, the first being the title, and
      reading the text back line by line gives the summary's lines. */
  lemma SummaryLineCount(d: map<string, seq<string>>)
    requires SummaryKeys <= d.Keys && SummaryEntriesAreLines(d)
    ensures Lines(Join("\n", SummaryLines(d))) == SummaryLines(d)
    ensures LineCount(Join("\n", SummaryLines(d))) == 6 + |d["NEXT_TODO"]| + |d["KNOWN_LIMITATIONS"]|
    ensures Lines(Join("\n", SummaryLines(d)))[0] == "STEP_SUMMARY_CONTRACT:"
  {
    var todo, limits := d["NEXT_TODO"], d["KNOWN_LIMITATIONS"];
    FieldIsLine("  FILES_CHANGED: ", d["FILES_CHANGED"]);
    FieldIsLine("  PUBLIC_INTERFACES: ", d["PUBLIC_INTERFACES"]);
    FieldIsLine("  ENV_VARS: ", d["ENV_VARS"]);
    var head := ["STEP_SUMMARY_CONTRACT:",
                 "  FILES_CHANGED: " + Join(", ", d["FILES_CHANGED"]),
                 "  PUBLIC_INTERFACES: " + Join(", ", d["PUBLIC_INTERFACES"]),
                 "  ENV_VARS: " + Join(", ", d["ENV_VARS"]),
                 "  NEXT_TODO:"];
    assert IsLine("STEP_SUMMARY_CONTRACT:") && IsLine("  NEXT_TODO:") && IsLine("  KNOWN_LIMITATIONS:");
    assert AllLines(head);
    BulletsAreLines(todo);
    BulletsAreLines(limits);
    BulletsSpec(todo);
    BulletsSpec(limits);
    AllLinesAppend(head, Bullets(todo));
    AllLinesAppend(head + Bullets(todo), ["  KNOWN_LIMITATIONS:"]);
    AllLinesAppend(head + Bullets(todo) + ["  KNOWN_LIMITATIONS:"], Bullets(limits));
    assert SummaryLines(d) == head + Bullets(todo) + ["  KNOWN_LIMITATIONS:"] + Bullets(limits);
    LinesOfJoin(SummaryLines(d));
  }

  // ---------------------------------------------------------------------------
  // Compact mode

  /** The line count above which a file is replaced by its manifest, unless the
      caller gives another. */
  const DefaultMaxLines := 100

  /** How many leading lines are searched for definitions. */
  const SampleSize := 50

  function ManifestHeader(n: nat): string
  {
    "# File Manifest (" + NatToString(n) + " lines total)"
  }

  const Footer: seq<string> := ["#", "# [Full implementation omitted for token efficiency]",
                                "# NO_REPRINT: This file was already generated in a previous step."]

  /** A line that, once stripped, opens a class or a function definition. */
  predicate IsDefinition(line: string)
  {
    StartsWith(Strip(line), "class ") || StartsWith(Strip(line), "def ")
  }

  /** The manifest entries for the given lines: each definition line, stripped and
      prefixed, in order. */
  function Listed(lines: seq<string>): seq<string>
  {
    if lines == [] then []
    else
      var last := lines[|lines| - 1];
      Listed(lines[..|lines| - 1]) + (if IsDefinition(last) then ["#   " + Strip(last)] else [])
  }

  /** `lines[:50]`. */
  function Sample(lines: seq<string>): seq<string>
  {
    if |lines| <= SampleSize then lines else lines[..SampleSize]
  }

  /** The manifest lines of a file given by its lines. */
  function Manifest(lines: seq<string>): seq<string>
  {
    [ManifestHeader(|lines|), "# Key components:"] + Listed(Sample(lines)) + Footer
  }

  /** What `enforce_compact_mode` returns: the content itself when it is short
      enough, its manifest otherwise. */
  function Compact(content: string, maxLines: int): string
  {
    var lines := Lines(content);
    if |lines| <= maxLines then content else Join("\n", Manifest(lines))
  }

  /** `enforce_compact_mode`: a file of at most `maxLines` lines comes back
      unchanged; a longer one is replaced by its manifest. */
  method EnforceCompactMode(fileContent: string, maxLines: int := DefaultMaxLines) returns (r: string)
    ensures r == Compact(fileContent, maxLines)
    ensures LineCount(fileContent) <= maxLines ==> r == fileContent
  {
    var lines := Lines(fileContent);
    if |lines| <= maxLines {
      return fileContent;
    }
    var manifest := [ManifestHeader(|lines|), "# Key components:"];
    var sample := if |lines| <= SampleSize then lines else lines[..SampleSize];
    manifest := AppendDefinitions(manifest, sample);
    ghost var listed := manifest;
    manifest := manifest + ["#"];
    manifest := manifest + ["# [Full implementation omitted for token efficiency]"];
    manifest := manifest + ["# NO_REPRINT: This file was already generated in a previous step."];
    assert manifest == listed + Footer;
    r := Join("\n", manifest);
  }

  /** The loop listing the definition lines of the sample. */
  method AppendDefinitions(manifest0: seq<string>, sample: seq<string>) returns (manifest: seq<string>)
    ensures manifest == manifest0 + Listed(sample)
  {
    manifest := manifest0;
    for i := 0 to |sample|
      invariant manifest == manifest0 + Listed(sample[..i])
    {
      assert sample[..i + 1][..i] == sample[..i];
      var stripped := Strip(sample[i]);
      if StartsWith(stripped, "class ") || StartsWith(stripped, "def ") {
        manifest := manifest + ["#   " + stripped];
      }
    }
    assert sample[..|sample|] == sample;
  }

  /** Listing is done line by line, so it keeps the order of the lines. */
  lemma {:induction false} ListedAppend(a: seq<string>, b: seq<string>)
    decreases |b|
    ensures Listed(a + b) == Listed(a) + Listed(b)
  {
    if b == [] {
      assert a + b == a;
    } else {
      var init := b[..|b| - 1];
      ListedAppend(a, init);
      assert (a + b)[..|a + b| - 1] == a + init;
    }
  }

  /** Every manifest entry is a stripped definition line, and every definition
      line has its entry. */
  lemma {:induction false} ListedSpec(lines: seq<string>)
    ensures |Listed(lines)| <= |lines|
    ensures forall e :: e in Listed(lines) ==>
              exists k :: 0 <= k < |lines| && IsDefinition(lines[k]) && e == "#   " + Strip(lines[k])
    ensures forall k :: 0 <= k < |lines| && IsDefinition(lines[k]) ==> "#   " + Strip(lines[k]) in Listed(lines)
  {
    if lines != [] {
      var init := lines[..|lines| - 1];
      ListedSpec(init);
      assert forall k :: 0 <= k < |init| ==> init[k] == lines[k];
    }
  }

  /** Lines in, lines out: the entries of lines holding no newline hold none either. */
  lemma {:induction false} ListedAreLines(lines: seq<string>)
    requires AllLines(lines)
    ensures AllLines(Listed(lines))
  {
    if lines != [] {
      var init, last := lines[..|lines| - 1], lines[|lines| - 1];
      assert AllLines(init) by {
        assert forall k :: 0 <= k < |init| ==> init[k] == lines[k];
      }
      ListedAreLines(init);
      StripIsLine(last);
      assert IsLine("#   ");
      ConcatIsLine("#   ", Strip(last));
      AllLinesAppend(Listed(init), if IsDefinition(last) then ["#   " + Strip(last)] else []);
    }
  }

  /** A long file's compact form reads back, line by line, as its manifest: the
      header with the original line count, the definitions among the first fifty
      lines, and the three footer lines ending with the no-reprint notice. It has
      at most 55 lines. */
  lemma CompactManifest(content: string, maxLines: int)
    requires LineCount(content) > maxLines
    ensures var m := Lines(Compact(content, maxLines));
      && m == Manifest(Lines(content))
      && m[0] == ManifestHeader(LineCount(content))
      && m[1] == "# Key components:"
      && m[|m| - 3..] == Footer
      && 5 <= |m| <= 5 + SampleSize
  {
    var lines := Lines(content);
    var sample := Sample(lines);
    LinesAreLines(content);
    assert AllLines(sample) by {
      assert forall k :: 0 <= k < |sample| ==> sample[k] == lines[k];
    }
    ListedAreLines(sample);
    ListedSpec(sample);
    HeaderIsLine(|lines|);
    assert IsLine("# Key components:");
    FooterAreLines();
    var head := [ManifestHeader(|lines|), "# Key components:"];
    AllLinesAppend(head, Listed(sample));
    AllLinesAppend(head + Listed(sample), Footer);
    LinesOfJoin(Manifest(lines));
  }

  lemma FooterAreLines()
    ensures AllLines(Footer)
  {
    OmittedIsLine();
    NoReprintIsLine();
  }

  lemma OmittedIsLine()
    ensures IsLine("# [Full implementation omitted for token efficiency]")
  {
    var a, b, c := "# [Full implementation ", "omitted for token ", "efficiency]";
    assert IsLine(a) && IsLine(b) && IsLine(c);
    ConcatIsLine(a, b);
    ConcatIsLine(a + b, c);
  }

  lemma NoReprintIsLine()
    ensures IsLine("# NO_REPRINT: This file was already generated in a previous step.")
  {
    var a, b, c := "# NO_REPRINT: This file ", "was already generated ", "in a previous step.";
    assert IsLine(a) && IsLine(b) && IsLine(c);
    ConcatIsLine(a, b);
    ConcatIsLine(a + b, c);
  }

  lemma HeaderIsLine(n: nat)
    ensures IsLine(ManifestHeader(n))
  {
    NatToStringIsLine(n);
    assert IsLine("# File Manifest (") && IsLine(" lines total)");
    ConcatIsLine("# File Manifest (", NatToString(n));
    ConcatIsLine("# File Manifest (" + NatToString(n), " lines total)");
  }

  /** A file put through compact mode with the default threshold never breaks the
      no-reprint rule, whatever its path. */
  lemma CompactKeepsNoReprint(path: string, content: string)
    ensures !BlueprintVerifier.Oversized(BlueprintVerifier.FileEntry(path, Compact(content, DefaultMaxLines)))
  {
    if LineCount(content) > DefaultMaxLines {
      CompactManifest(content, DefaultMaxLines);
    }
  }
}
