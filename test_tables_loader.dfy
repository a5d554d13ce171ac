/**
 * TestTablesLoader: the score tables, one JSON-with-comments file per
 * instrument. A file's `//` comments are cut off line by line before it is
 * parsed; its key is the file name's stem with "_table" removed; the parsed
 * tables are cached and the directory is scanned again only while the cache
 * is empty.
 *
 * The directory listing and the JSON parser are parameters: a file whose
 * text cannot be read has no contents, and `parse` answers None where
 * `json.loads` raises.
 */
module TablesLoader {
  import opened Strings
  import opened Values

  /** A `.jsonc` file of the data directory: its stem and, if readable, its text. */
  datatype TableFile = TableFile(stem: string, contents: Option<string>)

  const Comment := "//"
  const TableSuffix := "_table"

  /** `text.splitlines()`, with "\n" as the only line break. */
  function Lines(text: string): (ls: seq<string>)
    ensures forall i :: 0 <= i < |ls| ==> '\n' !in ls[i]
    ensures text == [] <==> ls == []
  {
    if text == [] then []
    else
      var ps := Split(text, '\n');
      if ps[|ps| - 1] == [] then
        assert |ps| > 1 by {
          JoinSplit(text, '\n');
        }
        ps[..|ps| - 1]
      else ps
  }

  /** One line with its comment cut off: `line.split("//", 1)[0]` when the line has "//". */
  function StripComment(line: string): (r: string)
    ensures |r| <= |line| && r == line[..|r|]
    ensures !Contains(r, Comment)
    ensures !Contains(line, Comment) ==> r == line
    ensures Contains(line, Comment) ==> |r| < |line| && StartsWith(line[|r|..], Comment)
    ensures forall i :: 0 <= i < |r| ==> !StartsWith(line[i..], Comment)
  {
    if Contains(line, Comment) then
      var r := CutAt(line, Comment);
      CutAtFirstComment(line, r);
      NoCommentBefore(line, r);
      r
    else
      ContainsIffStartsSomewhere(line, Comment);
      line
  }

  lemma {:induction false} CutAtFirstComment(line: string, r: string)
    requires Contains(line, Comment) && r == CutAt(line, Comment)
    ensures |r| < |line|
  {
    ContainsIffStartsSomewhere(line, Comment);
    var i :| 0 <= i <= |line| && StartsWith(line[i..], Comment);
    assert i >= |r|;
  }

  lemma {:induction false} NoCommentBefore(line: string, r: string)
    requires |r| <= |line| && r == line[..|r|]
    requires forall i :: 0 <= i < |r| ==> !StartsWith(line[i..], Comment)
    ensures !Contains(r, Comment)
  {
    forall i | 0 <= i <= |r| ensures !StartsWith(r[i..], Comment) {
      if i < |r| && |r| - i >= 2 {
        assert r[i..][..2] == line[i..][..2];
      }
    }
    ContainsIffStartsSomewhere(r, Comment);
  }

  /** Every line with its comment cut off, in order. */
  function StrippedLines(ls: seq<string>): (r: seq<string>)
    ensures |r| == |ls| && forall i :: 0 <= i < |ls| ==> r[i] == StripComment(ls[i])
  {
    seq(|ls|, i requires 0 <= i < |ls| => StripComment(ls[i]))
  }

  /** The cleaned text `_load_jsonc` hands to the parser. */
  function Clean(text: string): string {
    Join(StrippedLines(Lines(text)), "\n")
  }

  /** The comment-stripping loop of `_load_jsonc`. */
  method CleanJsonc(text: string) returns (cleaned: string)
    ensures cleaned == Clean(text)
  {
    var source := Lines(text);
    var lines: seq<string> := [];
    var i := 0;
    while i < |source|
      invariant 0 <= i <= |source|
      invariant |lines| == i && forall j :: 0 <= j < i ==> lines[j] == StripComment(source[j])
    {
      var stripped := StripLine(source[i]);
      lines := lines + [stripped];
      i := i + 1;
    }
    assert lines == StrippedLines(source);
    cleaned := Join(lines, "\n");
  }

  /** One pass of the loop: the line up to its first "//", or the whole line. */
  method StripLine(line: string) returns (stripped: string)
    ensures stripped == StripComment(line)
  {
    stripped := line;
    if Contains(line, Comment) {
      stripped := CutAt(line, Comment);
    }
  }

  /** The cleaned text has one line per line of the file, each that line without its comment. */
  lemma {:induction false} CleanKeepsLines(text: string)
    requires text != []
    ensures Split(Clean(text), '\n') == StrippedLines(Lines(text))
  {
    var ls := Lines(text);
    var stripped := StrippedLines(ls);
    forall i | 0 <= i < |stripped| ensures '\n' !in stripped[i] {
      assert stripped[i] == ls[i][..|stripped[i]|];
      forall j | 0 <= j < |stripped[i]| ensures stripped[i][j] != '\n' {
        assert stripped[i][j] == ls[i][j];
      }
    }
    SplitJoin(stripped, '\n');
  }

  /** "//" is cut even inside a JSON string: a URL loses everything from its "//". */
  lemma {:induction false} CommentInsideString()
    ensures StripComment("\"http://x\"") == "\"http:"
  {
    var line := "\"http://x\"";
    assert StartsWith(line[6..], Comment);
    ContainsAt(line, Comment, 6);
    var r := StripComment(line);
    assert |r| <= 6;
    assert line[|r|..][..2] == Comment;
    assert line[|r|] == '/';
    assert r == line[..6];
  }

  /** `p.stem.replace("_table", "")` */
  function KeyOf(stem: string): string {
    ReplaceAll(stem, TableSuffix, "")
  }

  /** The glob `*_table.jsonc`: the stem ends with "_table". */
  predicate IsTableStem(stem: string) {
    |TableSuffix| <= |stem| && stem[|stem| - |TableSuffix|..] == TableSuffix
  }

  /** A stem `name_table` with no other "_table" in it is the key `name`. */
  lemma {:induction false} KeyOfTableStem(stem: string)
    requires IsTableStem(stem)
    requires !Contains(stem[..|stem| - |TableSuffix|], TableSuffix)
    ensures KeyOf(stem) == stem[..|stem| - |TableSuffix|]
  {
    var name := stem[..|stem| - |TableSuffix|];
    assert stem == name + TableSuffix;
    ContainsIffStartsSomewhere(name, TableSuffix);
    forall i | 0 <= i < |name| ensures !StartsWith((name + TableSuffix)[i..], TableSuffix) {
      var s := name + TableSuffix;
      if i + |TableSuffix| <= |name| {
        assert s[i..][..|TableSuffix|] == name[i..][..|TableSuffix|];
      } else {
        assert s[|name|] == '_';
        assert s[i..][|name| - i] == '_';
        assert TableSuffix[|name| - i] != '_';
      }
    }
    ReplaceAllTrailing(name, TableSuffix);
  }

  /** `list(data_dir.glob("*_table.jsonc"))`, in listing order. */
  function Glob(listing: seq<TableFile>): (r: seq<TableFile>)
    ensures forall i :: 0 <= i < |r| ==> IsTableStem(r[i].stem) && r[i] in listing
    ensures forall f :: f in listing && IsTableStem(f.stem) ==> f in r
    decreases |listing|
  {
    if listing == [] then []
    else
      var init := Glob(listing[..|listing| - 1]);
      var f := listing[|listing| - 1];
      assert forall g :: g in listing <==> g in listing[..|listing| - 1] || g == f;
      if IsTableStem(f.stem) then init + [f] else init
  }

  /** `_load_jsonc(p)`, None where it raises. */
  function Parsed(f: TableFile, parse: string -> Option<Json>): Option<Json> {
    if f.contents.None? then None else parse(Clean(f.contents.value))
  }

  /** The loop of `load_all` over the matched files, into the cache m. */
  function LoadInto(m: map<string, Json>, files: seq<TableFile>, parse: string -> Option<Json>): map<string, Json>
    decreases |files|
  {
    if files == [] then m
    else
      LoadOne(LoadInto(m, files[..|files| - 1], parse), files[|files| - 1], parse)
  }

  /** One file of the loop: cached under its key when it parses. */
  function LoadOne(m: map<string, Json>, f: TableFile, parse: string -> Option<Json>): map<string, Json> {
    match Parsed(f, parse)
    case Some(data) => m[KeyOf(f.stem) := data]
    case None => m
  }

  /** The cache after `load_all`: kept when non-empty, otherwise the directory's tables. */
  function Cached(cache: map<string, Json>, listing: seq<TableFile>, parse: string -> Option<Json>): map<string, Json> {
    if |cache| != 0 then cache else LoadInto(cache, Glob(listing), parse)
  }

  /** The table under a key: the last matched file with that key that parses; None when there is none. */
  function LastTable(files: seq<TableFile>, parse: string -> Option<Json>, key: string): Option<Json>
    decreases |files|
  {
    if files == [] then None
    else
      var f := files[|files| - 1];
      if KeyOf(f.stem) == key && Parsed(f, parse).Some? then Parsed(f, parse)
      else LastTable(files[..|files| - 1], parse, key)
  }

  class TestTablesLoader {
    /** The `.jsonc` files of the data directory, in listing order. */
    const listing: seq<TableFile>
    /** `json.loads` */
    const parse: string -> Option<Json>
    var cache: map<string, Json>

    constructor (listing: seq<TableFile>, parse: string -> Option<Json>)
      ensures this.listing == listing && this.parse == parse && cache == map[]
    {
      this.listing := listing;
      this.parse := parse;
      cache := map[];
    }

    /** `_load_jsonc(path)`: read, strip comments, parse. */
    method LoadJsonc(f: TableFile) returns (data: Option<Json>)
      ensures data == Parsed(f, parse)
    {
      if f.contents.None? {
        return None;
      }
      var cleaned := CleanJsonc(f.contents.value);
      data := parse(cleaned);
    }

    /** `load_all()` */
    method LoadAll() returns (tables: map<string, Json>)
      modifies this
      ensures cache == Cached(old(cache), listing, parse) && tables == cache
    {
      if |cache| != 0 {
        return cache;
      }
      var files := Glob(listing);
      ghost var start := cache;
      var i := 0;
      while i < |files|
        invariant 0 <= i <= |files|
        invariant cache == LoadInto(start, files[..i], parse)
      {
        var f := files[i];
        var data := LoadJsonc(f);
        if data.Some? {
          var key := KeyOf(f.stem);
          cache := cache[key := data.value];
        }
        assert files[..i + 1][..i] == files[..i];
        i := i + 1;
      }
      assert files[..i] == files;
      tables := cache;
    }

    /** `get(key)`: loads first while the cache is empty; None for an unknown key. */
    method Get(key: string) returns (table: Option<Json>)
      modifies this
      ensures cache == Cached(old(cache), listing, parse)
      ensures table == if key in cache then Some(cache[key]) else None
    {
      if |cache| == 0 {
        var _ := LoadAll();
      }
      table := if key in cache then Some(cache[key]) else None;
    }
  }

  /**
   * The cache holds a key exactly when some matched file with that key
   * parses, and then the table of the last such file.
   */
  lemma {:induction false} LoadedLookup(files: seq<TableFile>, parse: string -> Option<Json>, key: string)
    ensures var m := LoadInto(map[], files, parse);
      match LastTable(files, parse, key)
      case Some(t) => key in m && m[key] == t
      case None => key !in m
    decreases |files|
  {
    if files != [] {
      LoadedLookup(files[..|files| - 1], parse, key);
    }
  }

  /** The files one after another. */
  lemma {:induction false} LoadIntoSplit(m: map<string, Json>, a: seq<TableFile>, b: seq<TableFile>, parse: string -> Option<Json>)
    ensures LoadInto(m, a + b, parse) == LoadInto(LoadInto(m, a, parse), b, parse)
    decreases |b|
  {
    if b != [] {
      var s := a + b;
      assert s[..|s| - 1] == a + b[..|b| - 1];
      assert s[|s| - 1] == b[|b| - 1];
      LoadIntoSplit(m, a, b[..|b| - 1], parse);
      assert LoadInto(m, s, parse) == LoadOne(LoadInto(m, a + b[..|b| - 1], parse), b[|b| - 1], parse);
    } else {
      assert a + b == a;
    }
  }

  /** A file that cannot be read or parsed is skipped: the others are cached as without it. */
  lemma {:induction false} UnparsedFileSkipped(m: map<string, Json>, files: seq<TableFile>, parse: string -> Option<Json>, i: nat)
    requires i < |files| && Parsed(files[i], parse).None?
    ensures LoadInto(m, files, parse) == LoadInto(m, files[..i] + files[i + 1..], parse)
  {
    assert files == files[..i] + [files[i]] + files[i + 1..];
    LoadIntoSplit(m, files[..i] + [files[i]], files[i + 1..], parse);
    LoadIntoSplit(m, files[..i], [files[i]], parse);
    assert LoadInto(LoadInto(m, files[..i], parse), [files[i]], parse) == LoadInto(m, files[..i], parse) by {
      assert [files[i]][..0] == [];
    }
    LoadIntoSplit(m, files[..i], files[i + 1..], parse);
  }

  /** A second `load_all` changes nothing once the first has filled the cache. */
  lemma {:induction false} LoadAllSettles(cache: map<string, Json>, listing: seq<TableFile>, parse: string -> Option<Json>)
    requires |Cached(cache, listing, parse)| != 0
    ensures Cached(Cached(cache, listing, parse), listing, parse) == Cached(cache, listing, parse)
  {
  }

  /** An empty directory scan leaves the cache empty, so every later call scans again. */
  lemma {:induction false} EmptyScanRescans(listing: seq<TableFile>, parse: string -> Option<Json>)
    requires forall i :: 0 <= i < |listing| ==> !IsTableStem(listing[i].stem) || Parsed(listing[i], parse).None?
    ensures Cached(map[], listing, parse) == map[]
  {
    var files := Glob(listing);
    forall i | 0 <= i < |files| ensures Parsed(files[i], parse).None? {
      var j :| 0 <= j < |listing| && listing[j] == files[i];
    }
    AllUnparsed(files, parse);
  }

  lemma {:induction false} AllUnparsed(files: seq<TableFile>, parse: string -> Option<Json>)
    requires forall i :: 0 <= i < |files| ==> Parsed(files[i], parse).None?
    ensures LoadInto(map[], files, parse) == map[]
    decreases |files|
  {
    if files != [] {
      AllUnparsed(files[..|files| - 1], parse);
    }
  }
}
