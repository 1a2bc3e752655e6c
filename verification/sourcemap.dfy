/** Source-map lookups for JS errors: the map stored for a bundle, the
    original position of a minified location, and the lines of original
    source around it. File access and the source-map library are passed in
    as functions. */
module SourceMap {
  import opened Common
  import opened Text

  /** `${filename}.map`: the stored map of a bundle. */
  function MapName(filename: string): (name: string)
    ensures EndsWith(name, ".map") && StartsWith(name, filename)
    ensures |name| == |filename| + 4
  {
    filename + ".map"
  }

  /** Different bundles never share a map file. */
  lemma MapNameInjective(a: string, b: string)
    requires MapName(a) == MapName(b)
    ensures a == b
  {
    assert a == MapName(a)[..|a|];
  }

  /** A parsed map: `sources` and `sourcesContent`, whose entries may be null. */
  datatype SourceMapDoc = SourceMapDoc(sources: Option<seq<string>>, sourcesContent: Option<seq<Option<string>>>)

  /** What the library reports for a generated position. */
  datatype Position = Position(source: Option<string>, line: Option<int>, column: Option<int>, name: Option<string>)

  datatype Original = Original(source: string, line: int, column: int, name: Option<string>)

  /** `getSourceMap` followed by `JSON.parse` and the consumer: `read` gives
      the file content (None when it cannot be read), `parse` gives the map
      (None when parsing or the consumer throws). Empty content counts as
      missing. */
  function LoadMap(read: string -> Option<string>, parse: string -> Option<SourceMapDoc>, filename: string): (m: Option<SourceMapDoc>)
    ensures m.Some? <==> Present(read(MapName(filename))) && parse(read(MapName(filename)).value).Some?
    ensures m.Some? ==> m == parse(read(MapName(filename)).value)
  {
    var content := read(MapName(filename));
    if !Present(content) then None else parse(content.value)
  }

  /** `parseErrorStack`: the original position, or null when the map is
      missing or unreadable or the position maps to no source. */
  function ParseErrorStack(read: string -> Option<string>, parse: string -> Option<SourceMapDoc>,
                           lookup: (SourceMapDoc, int, int) -> Position,
                           filename: string, line: int, column: int): (r: Option<Original>)
    ensures r.Some? <==> LoadMap(read, parse, filename).Some?
                         && Present(lookup(LoadMap(read, parse, filename).value, line, column).source)
    ensures r.Some? ==>
              var p := lookup(LoadMap(read, parse, filename).value, line, column);
              && r.value.source == p.source.value
              && r.value.line == OrInt(p.line, 0) && r.value.column == OrInt(p.column, 0)
              && (Present(p.name) ==> r.value.name == p.name) && (!Present(p.name) ==> r.value.name.None?)
  {
    match LoadMap(read, parse, filename)
    case None => None
    case Some(doc) =>
      var p := lookup(doc, line, column);
      if !Present(p.source) then None
      else Some(Original(p.source.value, OrInt(p.line, 0), OrInt(p.column, 0),
                         if Present(p.name) then p.name else None))
  }

  /** `Array.prototype.slice` index normalisation: negative indexes count
      from the end; the result is clamped to [0, len]. */
  function SliceIndex(i: int, len: nat): (k: nat)
    ensures k <= len
    ensures 0 <= i <= len ==> k == i
  {
    if i < 0 then (if len + i < 0 then 0 else len + i)
    else if i > len then len
    else i
  }

  /** `xs.slice(a, b)`. */
  function JsSlice<T>(xs: seq<T>, a: int, b: int): (r: seq<T>)
    ensures 0 <= a <= b <= |xs| ==> r == xs[a..b]
    ensures 0 <= b <= a ==> r == []
    ensures |r| <= |xs|
  {
    var s := SliceIndex(a, |xs|);
    var e := SliceIndex(b, |xs|);
    if s < e then xs[s..e] else []
  }

  datatype Context = Context(before: seq<string>, current: string, after: seq<string>)

  /** The first source's text, when the map has one. */
  function FirstSource(doc: SourceMapDoc): (code: Option<string>)
    ensures code.Some? ==> code.value != ""
    ensures code.Some? <==> doc.sourcesContent.Some? && |doc.sourcesContent.value| > 0
                            && Present(doc.sourcesContent.value[0])
  {
    var contents := OrEmpty(doc.sourcesContent);
    if |contents| == 0 || !Present(contents[0]) then None else contents[0]
  }

  function Max(a: int, b: int): int { if a >= b then a else b }
  function Min(a: int, b: int): int { if a <= b then a else b }

  /** `getSourceContext` as written: the window is computed with the given
      `contextLines`, whatever its sign. */
  function SourceContext(read: string -> Option<string>, parse: string -> Option<SourceMapDoc>,
                         filename: string, line: int, contextLines: int): (r: Option<Context>)
    ensures r.Some? ==> LoadMap(read, parse, filename).Some? && FirstSource(LoadMap(read, parse, filename).value).Some?
    ensures r.Some? ==>
              var lines := Split(FirstSource(LoadMap(read, parse, filename).value).value, '\n');
              1 <= line <= |lines| && r.value.current == lines[line - 1]
    ensures LoadMap(read, parse, filename).None? ==> r.None?
    ensures LoadMap(read, parse, filename).Some? && FirstSource(LoadMap(read, parse, filename).value).Some? ==>
              r == ContextOf(Split(FirstSource(LoadMap(read, parse, filename).value).value, '\n'), line, contextLines)
    ensures r.Some? && contextLines >= 0 ==>
              var lines := Split(FirstSource(LoadMap(read, parse, filename).value).value, '\n');
              r.value.before + [r.value.current] + r.value.after
                == lines[Max(0, line - 1 - contextLines)..Min(|lines|, line + contextLines)]
  {
    match LoadMap(read, parse, filename)
    case None => None
    case Some(doc) =>
      match FirstSource(doc)
      case None => None
      case Some(code) =>
        var lines := Split(code, '\n');
        if 1 <= line <= |lines| && contextLines >= 0 then
          ContextIsContiguousSlice(lines, line, contextLines);
          ContextOf(lines, line, contextLines)
        else ContextOf(lines, line, contextLines)
  }

  /** The window around the 1-based `line` of `lines`, as written. */
  function ContextOf(lines: seq<string>, line: int, contextLines: int): (r: Option<Context>)
    ensures r.Some? <==> 1 <= line <= |lines|
    ensures r.Some? ==> r.value.current == lines[line - 1]
  {
    var target := line - 1;
    if target < 0 || target >= |lines| then None
    else
      var start := Max(0, target - contextLines);
      var end := Min(|lines|, target + contextLines + 1);
      Some(Context(JsSlice(lines, start, target), lines[target], JsSlice(lines, target + 1, end)))
  }

  /** For a non-negative width the window is the contiguous slice around
      the target: at most `contextLines` lines on each side, `before`
      ending just before the target and `after` starting just after it. */
  lemma ContextIsContiguousSlice(lines: seq<string>, line: int, contextLines: int)
    requires 1 <= line <= |lines| && contextLines >= 0
    ensures var c := ContextOf(lines, line, contextLines).value;
            var start := Max(0, line - 1 - contextLines);
            var end := Min(|lines|, line + contextLines);
            && |c.before| <= contextLines && |c.after| <= contextLines
            && c.before == lines[start..line - 1] && c.after == lines[line..end]
            && c.before + [c.current] + c.after == lines[start..end]
  {
    var start := Max(0, line - 1 - contextLines);
    var end := Min(|lines|, line + contextLines);
    var c := ContextOf(lines, line, contextLines).value;
    assert c.before == lines[start..line - 1];
    assert c.after == lines[line..end];
    assert lines[start..end] == lines[start..line - 1] + [lines[line - 1]] + lines[line..end];
  }

  /** As written, a negative width does not give an empty context: with
      ten lines, line 3 and width -5, `after` holds five lines, because the
      negative `end` counts from the end of the array. */
  lemma NegativeWidthLeaksLines(lines: seq<string>)
    requires |lines| == 10
    ensures var c := ContextOf(lines, 3, -5).value;
            c.before == [] && c.after == lines[3..8] && |c.after| == 5
  {
  }

  /** The window with the width clamped at zero: a negative width gives no
      surrounding lines. */
  function ClampedContextOf(lines: seq<string>, line: int, contextLines: int): (r: Option<Context>)
    ensures r.Some? <==> 1 <= line <= |lines|
    ensures r.Some? ==> r.value.current == lines[line - 1]
    ensures r.Some? ==> |r.value.before| <= Max(0, contextLines) && |r.value.after| <= Max(0, contextLines)
  {
    if 1 <= line <= |lines| then
      ContextIsContiguousSlice(lines, line, Max(0, contextLines));
      ContextOf(lines, line, Max(0, contextLines))
    else None
  }

  /** The clamped window is contiguous for every width. */
  lemma ClampedContextIsContiguous(lines: seq<string>, line: int, contextLines: int)
    requires 1 <= line <= |lines|
    ensures var c := ClampedContextOf(lines, line, contextLines).value;
            var w := Max(0, contextLines);
            c.before + [c.current] + c.after == lines[Max(0, line - 1 - w)..Min(|lines|, line + w)]
  {
    ContextIsContiguousSlice(lines, line, Max(0, contextLines));
  }

  /** `listSourceMaps`: the directory's names ending in `.map`, in order;
      an unreadable directory gives none. */
  function ListSourceMaps(dir: Fetch<seq<string>>): (names: seq<string>)
    ensures dir.Threw? ==> names == []
    ensures dir.Fetched? ==> names == Filter(dir.value, (f: string) => EndsWith(f, ".map"))
    ensures forall i :: 0 <= i < |names| ==> EndsWith(names[i], ".map")
  {
    match dir
    case Threw => []
    case Fetched(files) => Filter(files, (f: string) => EndsWith(f, ".map"))
  }

  /** Listing keeps every map file and drops every other name. */
  lemma ListSourceMapsExact(files: seq<string>, f: string)
    ensures f in ListSourceMaps(Fetched(files)) <==> f in files && EndsWith(f, ".map")
  {
    var names := ListSourceMaps(Fetched(files));
    if f in names {
      var i :| 0 <= i < |names| && names[i] == f;
    }
    if f in files && EndsWith(f, ".map") {
      var i :| 0 <= i < |files| && files[i] == f;
    }
  }

  /** Storing a map as `${filename}.map` makes it listed. */
  lemma StoredMapIsListed(files: seq<string>, filename: string)
    requires MapName(filename) in files
    ensures MapName(filename) in ListSourceMaps(Fetched(files))
  {
    ListSourceMapsExact(files, MapName(filename));
  }
}
