/** tools/make-classinclude.py: the generator of one-line forwarding
    headers for every exported class. Header discovery, reading and writing
    are inputs and outputs of the model: the scanned directory is a list of
    header files with their text (None when reading fails), and whether a
    write succeeds is a function of the class name. The regular expressions
    become scanners over the text, and whitespace and word characters are
    the ASCII ones. */
module ClassInclude {
  import opened Types

  /** Python's \s on ASCII: space, \t, \n, \r, \v and \f. */
  predicate IsSpace(c: char)
  {
    c == ' ' || c == '\t' || c == '\n' || c == '\r' || c == '\U{000B}' || c == '\U{000C}'
  }

  /** Python's \w on ASCII: letters, digits and underscore. */
  predicate IsWord(c: char)
  {
    ('a' <= c <= 'z') || ('A' <= c <= 'Z') || ('0' <= c <= '9') || c == '_'
  }

  /** The character class [:{<] that ends every pattern. */
  predicate IsOpener(c: char)
  {
    c == ':' || c == '{' || c == '<'
  }

  predicate HasAt(text: string, i: int, w: string)
  {
    0 <= i && i + |w| <= |text| && text[i..i + |w|] == w
  }

  predicate AllSpace(text: string, lo: int, hi: int)
    requires 0 <= lo <= hi <= |text|
  {
    forall k :: lo <= k < hi ==> IsSpace(text[k])
  }

  predicate AllWord(text: string, lo: int, hi: int)
    requires 0 <= lo <= hi <= |text|
  {
    forall k :: lo <= k < hi ==> IsWord(text[k])
  }

  predicate NoClose(text: string, lo: int, hi: int)
    requires 0 <= lo <= hi <= |text|
  {
    forall k :: lo <= k < hi ==> text[k] != '>'
  }

  /** The end of the longest run of whitespace from i. */
  function SkipSpaces(text: string, i: int): (j: int)
    requires 0 <= i <= |text|
    ensures i <= j <= |text| && AllSpace(text, i, j)
    ensures j == |text| || !IsSpace(text[j])
    decreases |text| - i
  {
    if i < |text| && IsSpace(text[i]) then SkipSpaces(text, i + 1) else i
  }

  /** The end of the longest run of word characters from i. */
  function SkipWord(text: string, i: int): (j: int)
    requires 0 <= i <= |text|
    ensures i <= j <= |text| && AllWord(text, i, j)
    ensures j == |text| || !IsWord(text[j])
    decreases |text| - i
  {
    if i < |text| && IsWord(text[i]) then SkipWord(text, i + 1) else i
  }

  /** The first '>' at or after i, or the end of the text. */
  function SkipToClose(text: string, i: int): (j: int)
    requires 0 <= i <= |text|
    ensures i <= j <= |text| && NoClose(text, i, j)
    ensures j == |text| || text[j] == '>'
    decreases |text| - i
  {
    if i < |text| && text[i] != '>' then SkipToClose(text, i + 1) else i
  }

  /** A run that ends where its class ends is the longest one. */
  lemma {:induction false} SkipSpacesExact(text: string, i: int, j: int)
    requires 0 <= i <= j <= |text| && AllSpace(text, i, j)
    requires j == |text| || !IsSpace(text[j])
    ensures SkipSpaces(text, i) == j
    decreases j - i
  {
    if i < j {
      SkipSpacesExact(text, i + 1, j);
    }
  }

  lemma {:induction false} SkipWordExact(text: string, i: int, j: int)
    requires 0 <= i <= j <= |text| && AllWord(text, i, j)
    requires j == |text| || !IsWord(text[j])
    ensures SkipWord(text, i) == j
    decreases j - i
  {
    if i < j {
      SkipWordExact(text, i + 1, j);
    }
  }

  lemma {:induction false} SkipToCloseExact(text: string, i: int, j: int)
    requires 0 <= i <= j < |text| && NoClose(text, i, j) && text[j] == '>'
    ensures SkipToClose(text, i) == j
    decreases j - i
  {
    if i < j {
      SkipToCloseExact(text, i + 1, j);
    }
  }

  /** One match: the captured name and the index just past the match. */
  datatype Found = Found(name: string, end: int)

  const ExportMacro: string := "QWT_EXPORT"

  /** The pattern `kw\s+QWT_EXPORT\s+(\w+)\s*[:{<]` tried at position i.
    Every repetition is followed by a character its class excludes, so
    the longest run is the only one a match can use and no backtracking
    is needed. */
  function MatchExport(text: string, i: int, kw: string): (r: Option<Found>)
    requires 0 <= i <= |text|
    ensures r.Some? ==> i < r.value.end <= |text| && IsOpener(text[r.value.end - 1])
  {
    if !HasAt(text, i, kw) then None
    else
      var a := SkipSpaces(text, i + |kw|);
      if a == i + |kw| || !HasAt(text, a, ExportMacro) then None
      else
        var s := SkipSpaces(text, a + |ExportMacro|);
        if s == a + |ExportMacro| then None
        else
          var e := SkipWord(text, s);
          if e == s then None
          else
            var t := SkipSpaces(text, e);
            if t < |text| && IsOpener(text[t]) then Some(Found(text[s..e], t + 1)) else None
  }

  /** The export pattern read as a decomposition of text[i..t+1]: the
    keyword, whitespace up to a, the macro, whitespace up to s, the name
    text[s..e], whitespace up to t, and an opener at t. */
  predicate ExportParts(text: string, i: int, kw: string, a: int, s: int, e: int, t: int)
  {
    0 <= i && HasAt(text, i, kw) && i + |kw| < a && a + |ExportMacro| < s < e <= t < |text| &&
    AllSpace(text, i + |kw|, a) && HasAt(text, a, ExportMacro) &&
    AllSpace(text, a + |ExportMacro|, s) && AllWord(text, s, e) &&
    AllSpace(text, e, t) && IsOpener(text[t])
  }

  /** Whatever the scanner matches is an instance of the pattern. */
  lemma {:induction false} MatchExportSound(text: string, i: int, kw: string)
    requires 0 <= i <= |text| && MatchExport(text, i, kw).Some?
    ensures exists a, s, e, t ::
      (ExportParts(text, i, kw, a, s, e, t) && MatchExport(text, i, kw) == Some(Found(text[s..e], t + 1)))
  {
    var a := SkipSpaces(text, i + |kw|);
    var s := SkipSpaces(text, a + |ExportMacro|);
    var e := SkipWord(text, s);
    var t := SkipSpaces(text, e);
    assert ExportParts(text, i, kw, a, s, e, t);
  }

  /** Wherever the pattern matches, the scanner matches too and captures
    the same name: the decomposition is unique. */
  lemma {:induction false} MatchExportComplete(text: string, i: int, kw: string, a: int, s: int, e: int, t: int)
    requires ExportParts(text, i, kw, a, s, e, t)
    ensures MatchExport(text, i, kw) == Some(Found(text[s..e], t + 1))
  {
    assert text[a] == ExportMacro[0];
    SkipSpacesExact(text, i + |kw|, a);
    assert IsWord(text[s]);
    SkipSpacesExact(text, a + |ExportMacro|, s);
    SkipWordExact(text, s, e);
    SkipSpacesExact(text, e, t);
  }

  const TemplateWord: string := "template"

  /** The pattern `template\s*<[^>]*>\s*kw\s+(\w+)\s*[:{<]` tried at i; the
    parameter list runs to the first '>'. */
  function MatchTemplate(text: string, i: int, kw: string): (r: Option<Found>)
    requires 0 <= i <= |text|
    ensures r.Some? ==> i < r.value.end <= |text| && IsOpener(text[r.value.end - 1])
  {
    if !HasAt(text, i, TemplateWord) then None
    else
      var lt := SkipSpaces(text, i + |TemplateWord|);
      if !(lt < |text| && text[lt] == '<') then None
      else
        var gt := SkipToClose(text, lt + 1);
        if gt == |text| then None
        else
          var k := SkipSpaces(text, gt + 1);
          if !HasAt(text, k, kw) then None
          else
            var s := SkipSpaces(text, k + |kw|);
            if s == k + |kw| then None
            else
              var e := SkipWord(text, s);
              if e == s then None
              else
                var t := SkipSpaces(text, e);
                if t < |text| && IsOpener(text[t]) then Some(Found(text[s..e], t + 1)) else None
  }

  /** The template pattern as a decomposition: "template", whitespace up to
    the '<' at lt, a parameter list without '>' up to the '>' at gt,
    whitespace up to the keyword at k, whitespace up to s, the name
    text[s..e], whitespace up to t, and an opener at t. */
  predicate TemplateParts(text: string, i: int, kw: string, lt: int, gt: int, k: int, s: int, e: int, t: int)
  {
    0 <= i && HasAt(text, i, TemplateWord) && i + |TemplateWord| <= lt < gt < k &&
    k + |kw| < s < e <= t < |text| &&
    AllSpace(text, i + |TemplateWord|, lt) && text[lt] == '<' && NoClose(text, lt + 1, gt) && text[gt] == '>' &&
    AllSpace(text, gt + 1, k) && HasAt(text, k, kw) &&
    AllSpace(text, k + |kw|, s) && AllWord(text, s, e) && AllSpace(text, e, t) && IsOpener(text[t])
  }

  lemma {:induction false} MatchTemplateSound(text: string, i: int, kw: string)
    requires 0 <= i <= |text| && MatchTemplate(text, i, kw).Some?
    ensures exists lt, gt, k, s, e, t ::
      (TemplateParts(text, i, kw, lt, gt, k, s, e, t) && MatchTemplate(text, i, kw) == Some(Found(text[s..e], t + 1)))
  {
    var lt := SkipSpaces(text, i + |TemplateWord|);
    var gt := SkipToClose(text, lt + 1);
    var k := SkipSpaces(text, gt + 1);
    var s := SkipSpaces(text, k + |kw|);
    var e := SkipWord(text, s);
    var t := SkipSpaces(text, e);
    assert TemplateParts(text, i, kw, lt, gt, k, s, e, t);
  }

  lemma {:induction false} MatchTemplateComplete(text: string, i: int, kw: string,
                                                 lt: int, gt: int, k: int, s: int, e: int, t: int)
    requires |kw| > 0 && !IsSpace(kw[0])
    requires TemplateParts(text, i, kw, lt, gt, k, s, e, t)
    ensures MatchTemplate(text, i, kw) == Some(Found(text[s..e], t + 1))
  {
    SkipSpacesExact(text, i + |TemplateWord|, lt);
    SkipToCloseExact(text, lt + 1, gt);
    assert text[k] == kw[0];
    SkipSpacesExact(text, gt + 1, k);
    assert IsWord(text[s]);
    SkipSpacesExact(text, k + |kw|, s);
    SkipWordExact(text, s, e);
    SkipSpacesExact(text, e, t);
  }

  /** re.findall: the leftmost match from i, then the next match from its
    end, each giving its captured name. */
  function FindAllExport(text: string, i: int, kw: string): (names: seq<string>)
    requires 0 <= i <= |text|
    decreases |text| - i
  {
    if i == |text| then []
    else match MatchExport(text, i, kw)
      case Some(f) => [f.name] + FindAllExport(text, f.end, kw)
      case None => FindAllExport(text, i + 1, kw)
  }

  function FindAllTemplate(text: string, i: int, kw: string): (names: seq<string>)
    requires 0 <= i <= |text|
    decreases |text| - i
  {
    if i == |text| then []
    else match MatchTemplate(text, i, kw)
      case Some(f) => [f.name] + FindAllTemplate(text, f.end, kw)
      case None => FindAllTemplate(text, i + 1, kw)
  }

  predicate NoOpener(text: string, lo: int)
    requires 0 <= lo <= |text|
  {
    forall k :: lo <= k < |text| ==> !IsOpener(text[k])
  }

  /** Every match ends with ':', '{' or '<', so text without any of them,
    such as a header of forward declarations `class QWT_EXPORT Name;`,
    yields no names. */
  lemma {:induction false} NoOpenerNoExport(text: string, i: int, kw: string)
    requires 0 <= i <= |text| && NoOpener(text, i)
    ensures FindAllExport(text, i, kw) == []
    decreases |text| - i
  {
    if i < |text| {
      NoOpenerNoExport(text, i + 1, kw);
    }
  }

  lemma {:induction false} NoOpenerNoTemplate(text: string, i: int, kw: string)
    requires 0 <= i <= |text| && NoOpener(text, i)
    ensures FindAllTemplate(text, i, kw) == []
    decreases |text| - i
  {
    if i < |text| {
      NoOpenerNoTemplate(text, i + 1, kw);
    }
  }

  /** Names starting with these prefixes, and these Qt containers, are not
    taken from template declarations. */
  const Denied: seq<string> := ["QMap", "QList", "QVector", "QSharedPointer"]

  predicate StartsWith(s: string, prefix: string)
  {
    |prefix| <= |s| && s[..|prefix|] == prefix
  }

  predicate ExcludedTemplate(name: string)
  {
    StartsWith(name, "QwtArray") || StartsWith(name, "QwtVector") || name in Denied
  }

  /** The list after appending each name of xs that is not yet present. */
  function AddUnique(acc: seq<string>, xs: seq<string>): (r: seq<string>)
  {
    if |xs| == 0 then acc
    else
      var prefix := AddUnique(acc, xs[..|xs| - 1]);
      if xs[|xs| - 1] in prefix then prefix else prefix + [xs[|xs| - 1]]
  }

  /** The same, skipping the excluded template names. */
  function AddTemplates(acc: seq<string>, xs: seq<string>): (r: seq<string>)
  {
    if |xs| == 0 then acc
    else
      var prefix := AddTemplates(acc, xs[..|xs| - 1]);
      var x := xs[|xs| - 1];
      if x !in prefix && !ExcludedTemplate(x) then prefix + [x] else prefix
  }

  predicate Distinct(s: seq<string>)
  {
    forall i, j :: 0 <= i < j < |s| ==> s[i] != s[j]
  }

  lemma {:induction false} AddUniqueFacts(acc: seq<string>, xs: seq<string>)
    ensures var r := AddUnique(acc, xs);
      |acc| <= |r| && r[..|acc|] == acc &&
      (forall x :: x in r <==> x in acc || x in xs) &&
      (Distinct(acc) ==> Distinct(r))
  {
    if |xs| > 0 {
      AddUniqueFacts(acc, xs[..|xs| - 1]);
      var prefix := AddUnique(acc, xs[..|xs| - 1]);
      assert xs == xs[..|xs| - 1] + [xs[|xs| - 1]];
      if xs[|xs| - 1] !in prefix {
        assert (prefix + [xs[|xs| - 1]])[..|acc|] == prefix[..|acc|];
      }
    }
  }

  lemma {:induction false} AddTemplatesFacts(acc: seq<string>, xs: seq<string>)
    ensures var r := AddTemplates(acc, xs);
      |acc| <= |r| && r[..|acc|] == acc &&
      (forall x :: x in r <==> x in acc || (x in xs && !ExcludedTemplate(x))) &&
      (Distinct(acc) ==> Distinct(r))
  {
    if |xs| > 0 {
      AddTemplatesFacts(acc, xs[..|xs| - 1]);
      var prefix := AddTemplates(acc, xs[..|xs| - 1]);
      var x := xs[|xs| - 1];
      assert xs == xs[..|xs| - 1] + [x];
      if x !in prefix && !ExcludedTemplate(x) {
        assert (prefix + [x])[..|acc|] == prefix[..|acc|];
      }
    }
  }

  /** The names found by the two export patterns, in match order, each
    once. */
  function ExportedNames(text: string): seq<string>
  {
    AddUnique(AddUnique([], FindAllExport(text, 0, "class")), FindAllExport(text, 0, "struct"))
  }

  /** What extract_exported_classes returns for a file's text: nothing when
    the file cannot be read; otherwise the exported names followed by the
    template names that pass the exclusion test. */
  function ExtractSpec(content: Option<string>): (r: seq<string>)
    ensures content.None? ==> r == []
  {
    match content
    case None => []
    case Some(text) =>
      AddTemplates(AddTemplates(ExportedNames(text), FindAllTemplate(text, 0, "class")), FindAllTemplate(text, 0, "struct"))
  }

  /** extract_exported_classes returns every name once; the exported names
    come first, in match order; and a name is returned exactly when one
    export pattern finds it or one template pattern finds it and it is not
    excluded. */
  lemma {:induction false} ExtractFacts(text: string)
    ensures var r := ExtractSpec(Some(text));
      var exported := FindAllExport(text, 0, "class") + FindAllExport(text, 0, "struct");
      var templates := FindAllTemplate(text, 0, "class") + FindAllTemplate(text, 0, "struct");
      Distinct(r) &&
      |ExportedNames(text)| <= |r| && r[..|ExportedNames(text)|] == ExportedNames(text) &&
      (forall x :: x in r <==> x in exported || (x in templates && !ExcludedTemplate(x)))
  {
    var c1 := FindAllExport(text, 0, "class");
    var c2 := FindAllExport(text, 0, "struct");
    var t1 := FindAllTemplate(text, 0, "class");
    var t2 := FindAllTemplate(text, 0, "struct");
    AddUniqueFacts([], c1);
    var e1 := AddUnique([], c1);
    AddUniqueFacts(e1, c2);
    var e2 := AddUnique(e1, c2);
    AddTemplatesFacts(e2, t1);
    var r1 := AddTemplates(e2, t1);
    AddTemplatesFacts(r1, t2);
    var r := AddTemplates(r1, t2);
    assert r[..|e2|] == r[..|r1|][..|e2|];
  }

  /** extract_exported_classes: the export patterns, then the template
    patterns, appended name by name. */
  method ExtractExportedClasses(content: Option<string>) returns (names: seq<string>)
    ensures names == ExtractSpec(content)
  {
    names := [];
    if content.None? {
      return;
    }
    var text := content.value;
    var keywords := ["class", "struct"];
    var p := 0;
    while p < 2
      invariant 0 <= p <= 2
      invariant p == 0 ==> names == []
      invariant p == 1 ==> names == AddUnique([], FindAllExport(text, 0, "class"))
      invariant p == 2 ==> names == ExportedNames(text)
    {
      var matches := FindAllExport(text, 0, keywords[p]);
      ghost var start := names;
      var k := 0;
      while k < |matches|
        invariant 0 <= k <= |matches|
        invariant names == AddUnique(start, matches[..k])
      {
        assert matches[..k + 1][..k] == matches[..k];
        if matches[k] !in names {
          names := names + [matches[k]];
        }
        k := k + 1;
      }
      assert matches[..k] == matches;
      p := p + 1;
    }
    p := 0;
    while p < 2
      invariant 0 <= p <= 2
      invariant p == 0 ==> names == ExportedNames(text)
      invariant p == 1 ==> names == AddTemplates(ExportedNames(text), FindAllTemplate(text, 0, "class"))
      invariant p == 2 ==> names == ExtractSpec(content)
    {
      var matches := FindAllTemplate(text, 0, keywords[p]);
      ghost var start := names;
      var k := 0;
      while k < |matches|
        invariant 0 <= k <= |matches|
        invariant names == AddTemplates(start, matches[..k])
      {
        assert matches[..k + 1][..k] == matches[..k];
        var name := matches[k];
        if name !in names && !StartsWith(name, "QwtArray") && !StartsWith(name, "QwtVector") && name !in Denied {
          names := names + [name];
        }
        k := k + 1;
      }
      assert matches[..k] == matches;
      p := p + 1;
    }
  }

  /** The text of a generated forwarding header. */
  function IncludeContent(header: string): (c: string)
  {
    "#include \"" + header + "\"\n"
  }

  /** The header a forwarding file names: the text between the quotes. */
  function IncludedHeader(c: string): (h: Option<string>)
  {
    if |c| >= 12 && c[..10] == "#include \"" && c[|c| - 2..] == "\"\n" then Some(c[10..|c| - 2]) else None
  }

  /** Reading the header back out of a generated file gives the header it
    was generated for. */
  lemma {:induction false} IncludeContentRoundTrip(header: string)
    ensures IncludedHeader(IncludeContent(header)) == Some(header)
  {
    var c := IncludeContent(header);
    assert |c| == |header| + 12;
    assert c[..10] == "#include \"";
    assert c[|c| - 2..] == "\"\n";
    assert c[10..|c| - 2] == header;
  }

  /** FIXED_FILES, in its insertion order. */
  const FixedFiles: seq<(string, string)> := [("QwtMath", "qwt_math.h"), ("QwtGlobal", "qwt_global.h")]

  predicate IsFixedName(name: string)
  {
    exists k :: 0 <= k < |FixedFiles| && FixedFiles[k].0 == name
  }

  /** A header found under the scanned directory: its path relative to the
    directory and its text, None when it cannot be read. */
  datatype HeaderFile = HeaderFile(relPath: string, content: Option<string>)

  /** The scanned directory: missing, or the headers rglob finds in it. */
  datatype ScanDir = Missing | Present(headers: seq<HeaderFile>)

  /** Whether scanDir/name exists, for a header file name. */
  predicate HeaderExists(dir: ScanDir, name: string)
  {
    dir.Present? && exists k :: 0 <= k < |dir.headers| && dir.headers[k].relPath == name
  }

  /** find_header_files: none for a missing directory. */
  function FindHeaderFiles(dir: ScanDir): (r: seq<HeaderFile>)
    ensures dir.Missing? ==> r == []
    ensures dir.Present? ==> r == dir.headers
  {
    match dir
    case Missing => []
    case Present(headers) => headers
  }

  /** A file written: the class name and its content. */
  type Write = (string, string)

  /** The fixed files written: each mapping whose header exists and whose
    write succeeds, in order. */
  function FixedWrites(dir: ScanDir, writeOk: string -> bool, n: int): (w: seq<Write>)
    requires 0 <= n <= |FixedFiles|
  {
    if n == 0 then []
    else
      var prefix := FixedWrites(dir, writeOk, n - 1);
      var (name, header) := FixedFiles[n - 1];
      if HeaderExists(dir, header) && writeOk(name) then prefix + [(name, IncludeContent(header))] else prefix
  }

  /** The files written for one header: each extracted name that is not a
    fixed one and whose write succeeds. */
  function HeaderWrites(names: seq<string>, relPath: string, writeOk: string -> bool): (w: seq<Write>)
  {
    if |names| == 0 then []
    else
      var prefix := HeaderWrites(names[..|names| - 1], relPath, writeOk);
      var name := names[|names| - 1];
      if !IsFixedName(name) && writeOk(name) then prefix + [(name, IncludeContent(relPath))] else prefix
  }

  function DiscoveredWrites(headers: seq<HeaderFile>, writeOk: string -> bool): (w: seq<Write>)
  {
    if |headers| == 0 then []
    else
      var h := headers[|headers| - 1];
      DiscoveredWrites(headers[..|headers| - 1], writeOk) + HeaderWrites(ExtractSpec(h.content), h.relPath, writeOk)
  }

  lemma {:induction false} DiscoveredWritesStep(fixed: seq<Write>, headers: seq<HeaderFile>, i: int, writeOk: string -> bool)
    requires 0 <= i < |headers|
    ensures fixed + DiscoveredWrites(headers[..i + 1], writeOk) ==
      (fixed + DiscoveredWrites(headers[..i], writeOk)) + HeaderWrites(ExtractSpec(headers[i].content), headers[i].relPath, writeOk)
  {
    assert headers[..i + 1][..i] == headers[..i];
  }

  /** Every file written for a header is for a name extracted from it that
    is not a fixed name, and it includes that header. */
  lemma {:induction false} HeaderWritesSound(names: seq<string>, relPath: string, writeOk: string -> bool)
    ensures forall w :: w in HeaderWrites(names, relPath, writeOk) ==>
      w.0 in names && !IsFixedName(w.0) && writeOk(w.0) && w.1 == IncludeContent(relPath)
  {
    if |names| > 0 {
      HeaderWritesSound(names[..|names| - 1], relPath, writeOk);
    }
  }

  /** Every discovered write comes from some header of the list, is not
    for a fixed name, and includes its header's relative path. */
  lemma {:induction false} DiscoveredWritesSound(headers: seq<HeaderFile>, writeOk: string -> bool)
    ensures forall w :: w in DiscoveredWrites(headers, writeOk) ==>
      !IsFixedName(w.0) && exists k ::
        (0 <= k < |headers| && w.0 in ExtractSpec(headers[k].content) && w.1 == IncludeContent(headers[k].relPath))
  {
    if |headers| > 0 {
      var init := headers[..|headers| - 1];
      var h := headers[|headers| - 1];
      DiscoveredWritesSound(init, writeOk);
      HeaderWritesSound(ExtractSpec(h.content), h.relPath, writeOk);
      forall w | w in DiscoveredWrites(headers, writeOk)
        ensures !IsFixedName(w.0) && exists k ::
          (0 <= k < |headers| && w.0 in ExtractSpec(headers[k].content) && w.1 == IncludeContent(headers[k].relPath))
      {
        if w in DiscoveredWrites(init, writeOk) {
          var k :| 0 <= k < |init| && w.0 in ExtractSpec(init[k].content) && w.1 == IncludeContent(init[k].relPath);
          assert headers[k] == init[k];
        } else {
          assert headers[|headers| - 1] == h;
        }
      }
    }
  }

  /** Every fixed file written names a header that exists. */
  lemma {:induction false} FixedWritesSound(dir: ScanDir, writeOk: string -> bool, n: int)
    requires 0 <= n <= |FixedFiles|
    ensures |FixedWrites(dir, writeOk, n)| <= n
    ensures forall w :: w in FixedWrites(dir, writeOk, n) ==>
      IsFixedName(w.0) && writeOk(w.0) && exists k ::
        (0 <= k < n && FixedFiles[k].0 == w.0 && HeaderExists(dir, FixedFiles[k].1) && w.1 == IncludeContent(FixedFiles[k].1))
  {
    if n > 0 {
      FixedWritesSound(dir, writeOk, n - 1);
    }
  }

  /** generate_fixed_files: returns the files written and their count. */
  method GenerateFixedFiles(dir: ScanDir, writeOk: string -> bool) returns (writes: seq<Write>, count: int)
    ensures writes == FixedWrites(dir, writeOk, |FixedFiles|) && count == |writes|
  {
    writes, count := [], 0;
    var n := 0;
    while n < |FixedFiles|
      invariant 0 <= n <= |FixedFiles|
      invariant writes == FixedWrites(dir, writeOk, n) && count == |writes|
    {
      var (name, header) := FixedFiles[n];
      if HeaderExists(dir, header) {
        if writeOk(name) {
          writes := writes + [(name, IncludeContent(header))];
          count := count + 1;
        }
      }
      n := n + 1;
    }
  }

  /** main's loop over one header's names: a forwarding file for each name
    that is not a fixed one, when its write succeeds. */
  method WriteHeaderIncludes(names: seq<string>, relPath: string, writeOk: string -> bool) returns (writes: seq<Write>)
    ensures writes == HeaderWrites(names, relPath, writeOk)
  {
    writes := [];
    var k := 0;
    assert names[..0] == [];
    while k < |names|
      invariant 0 <= k <= |names|
      invariant writes == HeaderWrites(names[..k], relPath, writeOk)
    {
      var name := names[k];
      assert names[..k + 1][..k] == names[..k];
      assert names[..k + 1][k] == name;
      if !IsFixedName(name) {
        if writeOk(name) {
          writes := writes + [(name, IncludeContent(relPath))];
        }
      }
      k := k + 1;
    }
    assert names[..k] == names;
  }

  /** What main reports when it runs to the end. */
  datatype Summary = Summary(processedFiles: int, totalClasses: int)

  /** main: the fixed files first; then, unless no header is found, one
    forwarding file per extracted name of each header, skipping the fixed
    names. The summary counts every header and every file written. */
  method Run(dir: ScanDir, writeOk: string -> bool) returns (writes: seq<Write>, summary: Option<Summary>)
    ensures var fixed := FixedWrites(dir, writeOk, |FixedFiles|);
      var headers := FindHeaderFiles(dir);
      (|headers| == 0 ==> writes == fixed && summary.None?) &&
      (|headers| > 0 ==>
        (writes == fixed + DiscoveredWrites(headers, writeOk) && summary == Some(Summary(|headers|, |writes|))))
  {
    var fixedCount;
    writes, fixedCount := GenerateFixedFiles(dir, writeOk);
    var headerFiles := FindHeaderFiles(dir);
    if |headerFiles| == 0 {
      return writes, None;
    }
    var totalClasses := fixedCount;
    var processedFiles := 0;
    ghost var fixed := writes;
    var i := 0;
    assert headerFiles[..0] == [];
    while i < |headerFiles|
      invariant 0 <= i <= |headerFiles| && processedFiles == i
      invariant writes == fixed + DiscoveredWrites(headerFiles[..i], writeOk)
      invariant totalClasses == |writes|
    {
      var header := headerFiles[i];
      var exported := ExtractExportedClasses(header.content);
      ghost var before := writes;
      var written := WriteHeaderIncludes(exported, header.relPath, writeOk);
      writes := writes + written;
      totalClasses := totalClasses + |written|;
      DiscoveredWritesStep(fixed, headerFiles, i, writeOk);
      processedFiles := processedFiles + 1;
      i := i + 1;
    }
    assert headerFiles[..i] == headerFiles;
    summary := Some(Summary(processedFiles, totalClasses));
  }

  /** A missing scan directory writes nothing, not even the fixed files,
    and main stops before any header is processed. */
  lemma {:induction false} MissingDirWritesNothing(writeOk: string -> bool, n: int)
    requires 0 <= n <= |FixedFiles|
    ensures FixedWrites(Missing, writeOk, n) == []
  {
    if n > 0 {
      MissingDirWritesNothing(writeOk, n - 1);
    }
  }
}
