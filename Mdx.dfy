/**
 * Presentation documents: front-matter defaulting, the three-tier
 * extraction of metadata from a document's text, the listing of available
 * presentations, and the component-name lint of a document body.
 *
 * The presentations directory is an abstract store from file names to
 * text (`files`) and, for listing, the directory's entries (`listing`,
 * `None` when the directory is absent or cannot be read). The YAML
 * front-matter parser and the evaluation of embedded literals are
 * function parameters whose outcome is either a value or a thrown value.
 */
module Mdx {
  import opened Wrappers
  import opened JsValues
  import opened Strings
  import Validation

  /** `{title, date, type, description}`; the fields hold whatever value was found, uncoerced (`kind` is `type`). */
  datatype Frontmatter = Frontmatter(title: Js, date: Js, kind: Js, description: Js)

  datatype MdxContent = MdxContent(frontmatter: Frontmatter, content: string, slug: string)

  /** `{success: true, data}` or `{success: false, error}`. */
  datatype ProcessingResult = Processed(data: MdxContent) | Failed(error: string)

  /** What a `throw` carries: an `Error` object with its message, or any other value. */
  datatype Thrown = ErrorThrown(message: string) | ValueThrown

  /** `{valid, issues}` of the lint. */
  datatype LintResult = LintResult(valid: bool, issues: seq<string>)

  const DefaultTitle: string := "Untitled Presentation"
  const DefaultKind: string := "presentation"

  // ---------------------------------------------------------------------
  // Front matter
  // ---------------------------------------------------------------------

  /**
   * `validateFrontmatter`: truthy `title`, `date` and `type` are kept, the
   * others defaulted; `today` is the date part of the current ISO time.
   * `description` is passed through, `undefined` when absent.
   */
  function ValidateFrontmatter(fm: Js, today: string): (r: Frontmatter)
    ensures Truthy(r.title) && Truthy(r.kind)
    ensures r.title == Prop(fm, "title") <==> Truthy(Prop(fm, "title"))
    ensures !Truthy(Prop(fm, "title")) ==> r.title == Str(DefaultTitle)
    ensures r.kind == Prop(fm, "type") <==> Truthy(Prop(fm, "type"))
    ensures !Truthy(Prop(fm, "type")) ==> r.kind == Str(DefaultKind)
    ensures today != "" ==> (r.date == Prop(fm, "date") <==> Truthy(Prop(fm, "date")))
    ensures !Truthy(Prop(fm, "date")) ==> r.date == Str(today)
    ensures r.description == Prop(fm, "description")
  {
    Frontmatter(
      Or(Prop(fm, "title"), Str(DefaultTitle)),
      Or(Prop(fm, "date"), Str(today)),
      Or(Prop(fm, "type"), Str(DefaultKind)),
      Prop(fm, "description"))
  }

  /** The front matter as the plain object the rendering layer receives. */
  function FrontmatterToJs(f: Frontmatter): Js {
    Obj(map["title" := f.title, "date" := f.date, "type" := f.kind, "description" := f.description])
  }

  /** Defaulting an already defaulted front matter changes nothing. */
  lemma ValidateFrontmatterIdempotent(fm: Js, today: string)
    ensures ValidateFrontmatter(FrontmatterToJs(ValidateFrontmatter(fm, today)), today) == ValidateFrontmatter(fm, today)
  {
  }

  /** The front matter of a document without usable metadata. */
  function DefaultFrontmatter(today: string): (r: Frontmatter)
    ensures r == Frontmatter(Str(DefaultTitle), Str(today), Str(DefaultKind), Undefined)
  {
    ValidateFrontmatter(Obj(map[]), today)
  }

  // ---------------------------------------------------------------------
  // Processing one document
  // ---------------------------------------------------------------------

  function FileName(slug: string): string {
    slug + ".mdx"
  }

  function NotFoundMessage(slug: string): string {
    "MDX file not found: " + slug + ".mdx"
  }

  /** The message of the catch-all handler. */
  function ProcessingFailure(e: Thrown): string {
    "Failed to process MDX file: " + (match e case ErrorThrown(m) => m case ValueThrown => "Unknown error")
  }

  const MetadataPrefix: string := "export const metadata = {"

  /**
   * The first match of `/export const metadata = \{([\s\S]*?)\}/`: the text
   * between the first `export const metadata = {` and the first `}` after it.
   */
  function MetadataBlock(text: string): (r: Option<string>)
    ensures r.None? <==> NoMetadataBlock(text)
    ensures r.Some? ==> exists i: nat :: MetadataBlockAt(text, i, r.value)
    ensures r.Some? ==> Contains(text, MetadataPrefix + r.value + "}")
    ensures r.Some? ==> forall k :: 0 <= k < |r.value| ==> r.value[k] != '}'
  {
    match IndexOf(text, MetadataPrefix)
    case None =>
      NoPrefixNoBlock(text);
      None
    case Some(i) =>
      var start := i + |MetadataPrefix|;
      match IndexOfFrom(text, "}", start)
      case None =>
        NoBraceNoBlock(text, i);
        None
      case Some(j) =>
        var group := text[start..j];
        MetadataBlockFound(text, i, j, group);
        Some(group)
  }

  /** The first prefix at `i` and the first `}` after it at `j` delimit the block. */
  lemma MetadataBlockFound(text: string, i: nat, j: nat, group: string)
    requires IndexOf(text, MetadataPrefix) == Some(i)
    requires IndexOfFrom(text, "}", i + |MetadataPrefix|) == Some(j)
    requires group == text[i + |MetadataPrefix|..j]
    ensures !NoMetadataBlock(text)
    ensures exists start: nat :: MetadataBlockAt(text, start, group)
    ensures Contains(text, MetadataPrefix + group + "}")
    ensures forall k :: 0 <= k < |group| ==> group[k] != '}'
  {
    var start := i + |MetadataPrefix|;
    assert OccursAt(text, MetadataPrefix, i) && OccursAt(text, "}", j);
    assert FirstAt(text, MetadataPrefix, 0, i);
    assert FirstAt(text, "}", start, start + |group|);
    assert MetadataBlockAt(text, i, group);
    MetadataBlockShape(text, i, j);
    forall k | 0 <= k < |group|
      ensures group[k] != '}'
    {
      assert group[k] == text[i + |MetadataPrefix| + k];
    }
  }

  lemma NoPrefixNoBlock(text: string)
    requires IndexOf(text, MetadataPrefix).None?
    ensures NoMetadataBlock(text)
  {
  }

  /** A `}` after a later occurrence of the prefix would also follow the first one. */
  lemma NoBraceNoBlock(text: string, i: nat)
    requires IndexOf(text, MetadataPrefix) == Some(i)
    requires IndexOfFrom(text, "}", i + |MetadataPrefix|).None?
    ensures NoMetadataBlock(text)
  {
    forall i': nat, j: nat | OccursAt(text, MetadataPrefix, i') && i' + |MetadataPrefix| <= j
      ensures !OccursAt(text, "}", j)
    {
      assert i <= i';
    }
  }

  /**
   * The pattern matches at the first `export const metadata = {`, at `i`,
   * and `group` runs from there to the first `}` after it.
   */
  ghost predicate MetadataBlockAt(text: string, i: nat, group: string) {
    FirstAt(text, MetadataPrefix, 0, i) && FirstAt(text, "}", i + |MetadataPrefix|, i + |MetadataPrefix| + |group|)
    && group == text[i + |MetadataPrefix|..i + |MetadataPrefix| + |group|]
  }

  /** No `export const metadata = {` has a `}` after it, so the pattern does not match. */
  ghost predicate NoMetadataBlock(text: string) {
    forall i: nat, j: nat :: OccursAt(text, MetadataPrefix, i) && i + |MetadataPrefix| <= j ==> !OccursAt(text, "}", j)
  }

  lemma MetadataBlockShape(text: string, i: nat, j: nat)
    requires OccursAt(text, MetadataPrefix, i) && i + |MetadataPrefix| <= j && OccursAt(text, "}", j)
    requires forall k :: i + |MetadataPrefix| <= k < j ==> !OccursAt(text, "}", k)
    ensures Contains(text, MetadataPrefix + text[i + |MetadataPrefix|..j] + "}")
    ensures forall k :: i + |MetadataPrefix| <= k < j ==> text[k] != '}'
  {
    var start := i + |MetadataPrefix|;
    var group := text[start..j];
    assert text[i..j + 1] == text[i..start] + text[start..j] + text[j..j + 1];
    ContainsIff(text, MetadataPrefix + group + "}", i);
    forall k | start <= k < j ensures text[k] != '}' {
      assert !OccursAt(text, "}", k);
      assert text[k..k + 1] == [text[k]];
    }
  }

  /** `presentationExists`. */
  predicate PresentationExists(slug: string, files: map<string, string>) {
    FileName(slug) in files
  }

  /**
   * `processMDXFile`. A missing file is reported by name. Text starting with
   * `---` goes to the YAML parser, whose body becomes the content; any other
   * text is the content as a whole, with metadata taken from an embedded
   * `export const metadata = {...}` block when it evaluates, and all
   * defaults otherwise. A throw from the parser becomes a failed result.
   */
  method ProcessMdxFile(
    slug: string,
    files: map<string, string>,
    parseMatter: string -> Result<(Js, string), Thrown>,
    evalLiteral: string -> Result<Js, Thrown>,
    today: string)
    returns (r: ProcessingResult)
    ensures !PresentationExists(slug, files) ==> r == Failed(NotFoundMessage(slug))
    ensures r.Processed? ==> PresentationExists(slug, files) && r.data.slug == slug
    ensures PresentationExists(slug, files) && r.Failed? ==> StartsWith(r.error, "Failed to process MDX file: ")
    ensures PresentationExists(slug, files) && StartsWith(files[FileName(slug)], "---") ==>
      match parseMatter(files[FileName(slug)])
      case Success(parsed) => r == Processed(MdxContent(ValidateFrontmatter(parsed.0, today), parsed.1, slug))
      case Failure(e) => r == Failed(ProcessingFailure(e))
    ensures PresentationExists(slug, files) && !StartsWith(files[FileName(slug)], "---") ==>
      r.Processed? && r.data.content == files[FileName(slug)]
    ensures PresentationExists(slug, files) && !StartsWith(files[FileName(slug)], "---") ==>
      var text := files[FileName(slug)];
      match MetadataBlock(text)
      case None => r.data.frontmatter == DefaultFrontmatter(today)
      case Some(block) =>
        match evalLiteral("({" + block + "})")
        case Success(metadata) => r.data.frontmatter == ValidateFrontmatter(metadata, today)
        case Failure(_) => r.data.frontmatter == DefaultFrontmatter(today)
  {
    var fileName := FileName(slug);
    if fileName !in files {
      return Failed(NotFoundMessage(slug));
    }
    var fileContent := files[fileName];
    var frontmatter: Frontmatter;
    var content: string;
    if StartsWith(fileContent, "---") {
      match parseMatter(fileContent) {
        case Failure(e) =>
          return Failed(ProcessingFailure(e));
        case Success(parsed) =>
          frontmatter := ValidateFrontmatter(parsed.0, today);
          content := parsed.1;
      }
    } else {
      var metadataMatch := MetadataBlock(fileContent);
      if metadataMatch.Some? {
        match evalLiteral("({" + metadataMatch.value + "})") {
          case Success(metadataObj) =>
            frontmatter := ValidateFrontmatter(metadataObj, today);
          case Failure(_) =>
            frontmatter := ValidateFrontmatter(Obj(map[]), today);
        }
        content := fileContent;
      } else {
        frontmatter := ValidateFrontmatter(Obj(map[]), today);
        content := fileContent;
      }
    }
    return Processed(MdxContent(frontmatter, content, slug));
  }

  // ---------------------------------------------------------------------
  // Listing the available presentations
  // ---------------------------------------------------------------------

  /**
   * The listing pipeline as written: keep entries ending in `.mdx`, then
   * `replace('.mdx', '')`, which removes the FIRST occurrence of `.mdx`.
   */
  function AsWrittenNames(entries: seq<string>): (r: seq<string>)
    ensures |r| <= |entries|
  {
    Renamed(entries, IsMdxEntry, StripFirstMdx)
  }

  predicate IsMdxEntry(e: string) {
    EndsWith(e, ".mdx")
  }

  function StripFirstMdx(e: string): string {
    ReplaceFirst(e, ".mdx", "")
  }

  /** The `filter` then `map` of a listing: `rename(e)` for each entry `keep` selects, in order. */
  function Renamed(entries: seq<string>, keep: string -> bool, rename: string -> string): (r: seq<string>)
    ensures |r| <= |entries|
  {
    if entries == [] then []
    else (if keep(entries[0]) then [rename(entries[0])] else []) + Renamed(entries[1..], keep, rename)
  }

  /** The entry the `k`-th name of a filter-then-map comes from. */
  lemma {:induction false} RenamedSource(entries: seq<string>, keep: string -> bool, rename: string -> string, k: nat) returns (j: nat)
    requires k < |Renamed(entries, keep, rename)|
    ensures j < |entries| && keep(entries[j]) && Renamed(entries, keep, rename)[k] == rename(entries[j])
    decreases |entries|
  {
    assert entries != [];
    var head := if keep(entries[0]) then [rename(entries[0])] else [];
    assert Renamed(entries, keep, rename) == head + Renamed(entries[1..], keep, rename);
    if k < |head| {
      j := 0;
    } else {
      var i := RenamedSource(entries[1..], keep, rename, k - |head|);
      j := i + 1;
    }
  }

  /** The filter-then-map keeps exactly the selected entries, each renamed. */
  lemma {:induction false} RenamedSoundComplete(entries: seq<string>, keep: string -> bool, rename: string -> string)
    ensures forall k :: 0 <= k < |Renamed(entries, keep, rename)| ==>
      exists j :: 0 <= j < |entries| && keep(entries[j]) && Renamed(entries, keep, rename)[k] == rename(entries[j])
    ensures forall j :: 0 <= j < |entries| && keep(entries[j]) ==> rename(entries[j]) in Renamed(entries, keep, rename)
  {
    if entries == [] {
      assert Renamed(entries, keep, rename) == [];
    } else {
      var rest := entries[1..];
      RenamedSoundComplete(rest, keep, rename);
      var head := if keep(entries[0]) then [rename(entries[0])] else [];
      var r := Renamed(entries, keep, rename);
      assert r == head + Renamed(rest, keep, rename);
      forall k | 0 <= k < |r|
        ensures exists j :: 0 <= j < |entries| && keep(entries[j]) && r[k] == rename(entries[j])
      {
        var j := RenamedSource(entries, keep, rename, k);
      }
      forall j | 0 <= j < |entries| && keep(entries[j])
        ensures rename(entries[j]) in r
      {
        if j > 0 {
          assert entries[j] == rest[j - 1];
        }
      }
    }
  }

  /** `getAvailablePresentations` as written; `None` is an absent or unreadable directory. */
  function GetAvailablePresentationsAsWritten(listing: Option<seq<string>>): (r: seq<string>)
    ensures listing.None? ==> r == []
    ensures listing.Some? ==> |r| <= |listing.value|
  {
    match listing
    case None => []
    case Some(entries) => AsWrittenNames(entries)
  }

  /** `name` is what the pipeline as written lists for the directory entry `e`. */
  predicate ListedAs(e: string, name: string) {
    EndsWith(e, ".mdx") && name == ReplaceFirst(e, ".mdx", "")
  }

  /**
   * The listing as written names exactly the `.mdx` entries, each under the
   * entry with its first `.mdx` removed.
   */
  lemma AsWrittenNamesSoundComplete(entries: seq<string>)
    ensures forall k :: 0 <= k < |AsWrittenNames(entries)| ==>
      exists j :: 0 <= j < |entries| && ListedAs(entries[j], AsWrittenNames(entries)[k])
    ensures forall j :: 0 <= j < |entries| && EndsWith(entries[j], ".mdx") ==>
      ReplaceFirst(entries[j], ".mdx", "") in AsWrittenNames(entries)
  {
    var r := AsWrittenNames(entries);
    RenamedSoundComplete(entries, IsMdxEntry, StripFirstMdx);
    forall k | 0 <= k < |r|
      ensures exists j :: 0 <= j < |entries| && ListedAs(entries[j], r[k])
    {
      var j := RenamedSource(entries, IsMdxEntry, StripFirstMdx, k);
      assert ListedAs(entries[j], r[k]);
    }
    forall j | 0 <= j < |entries| && EndsWith(entries[j], ".mdx")
      ensures ReplaceFirst(entries[j], ".mdx", "") in r
    {
      assert IsMdxEntry(entries[j]);
    }
  }


  /** The listing pipeline with the `.mdx` suffix stripped, as the `endsWith` filter intends. */
  function SlugNames(entries: seq<string>): (r: seq<string>)
    ensures |r| <= |entries|
    ensures forall k :: 0 <= k < |r| ==> FileName(r[k]) in entries
  {
    if entries == [] then []
    else
      var e := entries[0];
      var rest := SlugNames(entries[1..]);
      if EndsWith(e, ".mdx") then
        assert FileName(e[..|e| - 4]) == e;
        [e[..|e| - 4]] + rest
      else
        rest
  }

  /** Every `.mdx` entry is listed, under its name without the suffix. */
  lemma {:induction false} SlugNamesComplete(entries: seq<string>)
    ensures forall e :: e in entries && EndsWith(e, ".mdx") ==> e[..|e| - 4] in SlugNames(entries)
  {
    if entries != [] {
      SlugNamesComplete(entries[1..]);
      forall e | e in entries && EndsWith(e, ".mdx")
        ensures e[..|e| - 4] in SlugNames(entries)
      {
        if e != entries[0] {
          assert e in entries[1..];
        }
      }
    }
  }

  /** Listing keeps the directory's order: the names of concatenated listings are concatenated. */
  lemma {:induction false} SlugNamesAppend(a: seq<string>, b: seq<string>)
    ensures SlugNames(a + b) == SlugNames(a) + SlugNames(b)
  {
    if a == [] {
      assert a + b == b;
    } else {
      assert (a + b)[0] == a[0];
      assert (a + b)[1..] == a[1..] + b;
      SlugNamesAppend(a[1..], b);
    }
  }

  /** `getAvailablePresentations` with the suffix stripped; `[]` when the directory is absent or unreadable. */
  function GetAvailablePresentations(listing: Option<seq<string>>): (r: seq<string>)
    ensures listing.None? ==> r == []
    ensures listing.Some? ==> forall k :: 0 <= k < |r| ==> FileName(r[k]) in listing.value
  {
    match listing
    case None => []
    case Some(entries) => SlugNames(entries)
  }

  /**
   * `presentationExists` agrees with the listing: over a directory whose
   * entries are the stored files, a presentation exists exactly when the
   * listing names it.
   */
  lemma PresentationExistsIffListed(slug: string, entries: seq<string>, files: map<string, string>)
    requires forall e :: e in entries <==> e in files
    ensures PresentationExists(slug, files) <==> slug in GetAvailablePresentations(Some(entries))
  {
    var f := FileName(slug);
    if f in files {
      SlugNamesComplete(entries);
      assert EndsWith(f, ".mdx") by {
        assert f[|f| - 4..] == ".mdx";
      }
      assert f[..|f| - 4] == slug;
    }
    if slug in GetAvailablePresentations(Some(entries)) {
      var k :| 0 <= k < |SlugNames(entries)| && SlugNames(entries)[k] == slug;
    }
  }

  /** Every listed presentation can be processed: its file is found under the listed name. */
  lemma ListedPresentationsExist(entries: seq<string>, files: map<string, string>)
    requires forall e :: e in entries ==> e in files
    ensures forall k :: 0 <= k < |GetAvailablePresentations(Some(entries))| ==>
      PresentationExists(GetAvailablePresentations(Some(entries))[k], files)
  {
  }

  /** Where `.mdx` occurs in a listed name only as its suffix, the code as written lists the same names. */
  lemma {:induction false} AsWrittenAgreesOnPlainNames(entries: seq<string>)
    requires forall e :: e in entries && EndsWith(e, ".mdx") ==> IndexOf(e, ".mdx") == Some(|e| - 4)
    ensures AsWrittenNames(entries) == SlugNames(entries)
  {
    if entries != [] {
      var e := entries[0];
      if EndsWith(e, ".mdx") {
        assert ReplaceFirst(e, ".mdx", "") == e[..|e| - 4] by {
          assert e[|e| - 4 + 4..] == [];
        }
      }
      AsWrittenAgreesOnPlainNames(entries[1..]);
    }
  }

  /**
   * A file named `v1.mdx-notes.mdx` is listed as `v1-notes.mdx`, a name under
   * which no file exists, so the page generated for it reports the
   * presentation as missing; the suffix-stripping listing gives `v1.mdx-notes`.
   */
  lemma AsWrittenListingNamesMissingFile()
    ensures GetAvailablePresentationsAsWritten(Some(["v1.mdx-notes.mdx"])) == ["v1-notes.mdx"]
    ensures !PresentationExists("v1-notes.mdx", map["v1.mdx-notes.mdx" := ""])
    ensures GetAvailablePresentations(Some(["v1.mdx-notes.mdx"])) == ["v1.mdx-notes"]
    ensures PresentationExists("v1.mdx-notes", map["v1.mdx-notes.mdx" := ""])
  {
    AsWrittenListsInnerName("v1.mdx-notes.mdx");
    SuffixListingListsFile("v1.mdx-notes.mdx");
  }

  /** The code as written lists `v1.mdx-notes.mdx` as `v1-notes.mdx`, a name with no file. */
  lemma AsWrittenListsInnerName(e: string)
    requires e == "v1.mdx-notes.mdx"
    ensures AsWrittenNames([e]) == ["v1-notes.mdx"]
    ensures FileName("v1-notes.mdx") != e
  {
    assert EndsWith(e, ".mdx");
    FirstSuffixInside(e);
    assert [e][1..] == [];
    assert FileName("v1-notes.mdx")[2] != e[2];
  }

  /** Stripping the suffix lists `v1.mdx-notes.mdx` as `v1.mdx-notes`, whose file exists. */
  lemma SuffixListingListsFile(e: string)
    requires e == "v1.mdx-notes.mdx"
    ensures SlugNames([e]) == ["v1.mdx-notes"]
    ensures FileName("v1.mdx-notes") == e
  {
    assert EndsWith(e, ".mdx");
    assert [e][1..] == [];
    assert e[..|e| - 4] == "v1.mdx-notes";
  }

  /** In `v1.mdx-notes.mdx` the first `.mdx` is the inner one, and removing it leaves `v1-notes.mdx`. */
  lemma FirstSuffixInside(e: string)
    requires e == "v1.mdx-notes.mdx"
    ensures ReplaceFirst(e, ".mdx", "") == "v1-notes.mdx"
  {
    assert e[0..4][0] != ".mdx"[0];
    assert e[1..5][0] != ".mdx"[0];
    assert e[2..6] == ".mdx";
    assert IndexOfFrom(e, ".mdx", 2) == Some(2);
    assert IndexOfFrom(e, ".mdx", 1) == Some(2);
    assert IndexOf(e, ".mdx") == Some(2);
    assert e[..2] == "v1" && e[6..] == "-notes.mdx";
  }

  // ---------------------------------------------------------------------
  // The body lint
  // ---------------------------------------------------------------------

  /** The components a document may use. */
  const KnownComponents: seq<string> := ["Hero", "MetricGrid", "ChartSection", "CalloutBox", "ImageGallery", "Timeline", "Section"]

  /** The longest run of `\w` characters starting at `j`. */
  function WordRun(s: string, j: nat): (w: string)
    requires j <= |s|
    decreases |s| - j
    ensures j + |w| <= |s| && s[j..j + |w|] == w
    ensures forall k :: 0 <= k < |w| ==> IsWordChar(w[k])
    ensures j + |w| == |s| || !IsWordChar(s[j + |w|])
  {
    if j < |s| && IsWordChar(s[j]) then [s[j]] + WordRun(s, j + 1) else []
  }

  /** `<` followed by the word `w` occurs in `s` at `i`. */
  lemma TokenOccurs(s: string, i: nat, w: string)
    requires i + 1 + |w| <= |s| && s[i] == '<' && s[i + 1..i + 1 + |w|] == w
    ensures Contains(s, "<" + w)
  {
    assert s[i..i + 1 + |w|] == [s[i]] + s[i + 1..i + 1 + |w|];
    ContainsIff(s, "<" + w, i);
  }

  /**
   * The names matched by the global pattern `/<(\w+)/g` from position `i`,
   * in text order: each `<` directly followed by a word character starts a
   * match, which takes the whole run of word characters.
   */
  function ComponentTokensFrom(s: string, i: nat): (ts: seq<string>)
    requires i <= |s|
    decreases |s| - i
    ensures forall k :: 0 <= k < |ts| ==> ts[k] != [] && Contains(s, "<" + ts[k])
  {
    if i == |s| then []
    else if s[i] == '<' && i + 1 < |s| && IsWordChar(s[i + 1]) then
      var w := WordRun(s, i + 1);
      TokenOccurs(s, i, w);
      [w] + ComponentTokensFrom(s, i + 1 + |w|)
    else
      ComponentTokensFrom(s, i + 1)
  }

  function ComponentTokens(s: string): seq<string> {
    ComponentTokensFrom(s, 0)
  }

  /** A match of `<(\w+)` can start at `p`: a `<` directly followed by a word character. */
  predicate OpensAt(s: string, p: nat) {
    p + 1 < |s| && s[p] == '<' && IsWordChar(s[p + 1])
  }

  /** Reference scan: the word after every position from `i` on where a match can start, in text order. */
  function OpeningNames(s: string, i: nat): seq<string>
    requires i <= |s|
    decreases |s| - i
  {
    if i == |s| then []
    else (if OpensAt(s, i) then [WordRun(s, i + 1)] else []) + OpeningNames(s, i + 1)
  }

  /**
   * The scan misses nothing: skipping a matched word skips no `<`, so every
   * position where a match can start contributes its word, in order.
   */
  lemma {:induction false} ComponentTokensComplete(s: string, i: nat)
    requires i <= |s|
    ensures ComponentTokensFrom(s, i) == OpeningNames(s, i)
    decreases |s| - i
  {
    if i < |s| {
      if OpensAt(s, i) {
        var w := WordRun(s, i + 1);
        forall k | i + 1 <= k < i + 1 + |w|
          ensures IsWordChar(s[k])
        {
          assert s[k] == w[k - (i + 1)];
        }
        SkipWordRun(s, i + 1, i + 1 + |w|);
        ComponentTokensComplete(s, i + 1 + |w|);
      } else {
        ComponentTokensComplete(s, i + 1);
      }
    }
  }

  /** No match can start inside a run of word characters. */
  lemma {:induction false} SkipWordRun(s: string, a: nat, b: nat)
    requires a <= b <= |s|
    requires forall k :: a <= k < b ==> IsWordChar(s[k])
    ensures OpeningNames(s, a) == OpeningNames(s, b)
    decreases b - a
  {
    if a < b {
      assert !OpensAt(s, a);
      SkipWordRun(s, a + 1, b);
    }
  }

  /** A body without `<` names no component. */
  lemma {:induction false} NoAngleNoTokens(s: string, i: nat)
    requires i <= |s|
    requires forall k :: i <= k < |s| ==> s[k] != '<'
    ensures ComponentTokensFrom(s, i) == []
    decreases |s| - i
  {
    if i < |s| {
      NoAngleNoTokens(s, i + 1);
    }
  }

  /** One "Unknown component" issue per name outside the whitelist, in order. */
  function UnknownComponentIssues(tokens: seq<string>): (r: seq<string>)
    decreases |tokens|
    ensures |r| <= |tokens|
    ensures forall k :: 0 <= k < |r| ==> StartsWith(r[k], "Unknown component: ")
  {
    if tokens == [] then []
    else
      var n := |tokens| - 1;
      UnknownComponentIssues(tokens[..n])
        + (if tokens[n] in KnownComponents then [] else ["Unknown component: " + tokens[n]])
  }

  /** No component issue exactly when every name is whitelisted. */
  lemma {:induction false} UnknownComponentIssuesEmptyIff(tokens: seq<string>)
    ensures UnknownComponentIssues(tokens) == [] <==> forall k :: 0 <= k < |tokens| ==> tokens[k] in KnownComponents
  {
    if tokens != [] {
      var n := |tokens| - 1;
      UnknownComponentIssuesEmptyIff(tokens[..n]);
      assert forall k :: 0 <= k < n ==> tokens[..n][k] == tokens[k];
      if UnknownComponentIssues(tokens) == [] {
        assert UnknownComponentIssues(tokens[..n]) == [];
      }
    }
  }

  /** Every component issue names, with the fixed prefix, a non-whitelisted name from the token list. */
  lemma {:induction false} UnknownComponentIssuesNameTokens(tokens: seq<string>)
    ensures forall k :: 0 <= k < |UnknownComponentIssues(tokens)| ==>
      exists t :: t in tokens && t !in KnownComponents && UnknownComponentIssues(tokens)[k] == "Unknown component: " + t
  {
    if tokens != [] {
      var n := |tokens| - 1;
      var prefix := UnknownComponentIssues(tokens[..n]);
      UnknownComponentIssuesNameTokens(tokens[..n]);
      forall k | 0 <= k < |UnknownComponentIssues(tokens)|
        ensures exists t :: t in tokens && t !in KnownComponents && UnknownComponentIssues(tokens)[k] == "Unknown component: " + t
      {
        assert UnknownComponentIssues(tokens) == prefix
          + (if tokens[n] in KnownComponents then [] else ["Unknown component: " + tokens[n]]);
        if k < |prefix| {
          assert UnknownComponentIssues(tokens)[k] == prefix[k];
          var t :| t in tokens[..n] && t !in KnownComponents && prefix[k] == "Unknown component: " + t;
          assert t in tokens;
        } else {
          assert tokens[n] !in KnownComponents;
          assert tokens[n] in tokens;
          assert UnknownComponentIssues(tokens)[k] == "Unknown component: " + tokens[n];
        }
      }
    } else {
      assert UnknownComponentIssues(tokens) == [];
    }
  }

  /** The opening text of a `data={[...]}` chart-data literal. */
  const DataOpen: string := "data={["

  /** The matches of `/data=\{(\[[\s\S]*?\])\}/g`. */
  function DataLiterals(s: string): seq<string> {
    LiteralMatches(s, DataOpen)
  }

  predicate IsDataMatch(m: string) {
    StartsWith(m, DataOpen) && EndsWith(m, "]}") && |DataOpen| + 2 <= |m|
  }

  /** The array text the code hands to `eval`, as written: `replace('data={', '')` then `replace('}', '')`. */
  function DataLiteralTextAsWritten(m: string): string {
    ReplaceFirst(ReplaceFirst(m, "data={", ""), "}", "")
  }

  /** The array literal captured by the pattern's group: the match without `data={` and the closing `}`. */
  function DataLiteralText(m: string): (r: string)
    requires IsDataMatch(m)
    ensures "data={" + r + "}" == m
    ensures StartsWith(r, "[") && EndsWith(r, "]")
  {
    assert m[..7] == DataOpen;
    assert m[|m| - 2..] == "]}";
    assert m[6] == m[..7][6] == '[';
    assert m[|m| - 2] == m[|m| - 2..][0] == ']';
    assert m[|m| - 1] == m[|m| - 2..][1] == '}';
    var r := m[6..|m| - 1];
    assert m[..6] == "data={" by {
      assert m[..6] == m[..7][..6];
    }
    assert m == m[..6] + r + [m[|m| - 1]];
    assert r[..1] == [r[0]] == "[";
    assert r[|r| - 1..] == [r[|r| - 1]] == "]";
    r
  }

  /**
   * For a literal holding an object, the first `}` is the object's own, so
   * the text handed to `eval` is not the array literal: `data={[{}]}` gives
   * `[{]}`, a syntax error, while the captured literal is `[{}]`.
   */
  lemma AsWrittenExtractionBreaksObjectLiterals()
    ensures DataLiterals("data={[{}]}") == ["data={[{}]}"]
    ensures DataLiteralTextAsWritten("data={[{}]}") == "[{]}"
    ensures DataLiteralText("data={[{}]}") == "[{}]"
  {
    ObjectLiteralMatched();
    ObjectLiteralAsWritten();
    ObjectLiteralCaptured();
  }

  lemma ObjectLiteralCaptured()
    ensures IsDataMatch("data={[{}]}") && DataLiteralText("data={[{}]}") == "[{}]"
  {
    var m := "data={[{}]}";
    assert m[..7] == DataOpen;
    assert m[9..] == "]}";
    assert m[6..10] == "[{}]";
  }

  lemma ObjectLiteralMatched()
    ensures DataLiterals("data={[{}]}") == ["data={[{}]}"]
  {
    var m := "data={[{}]}";
    ObjectLiteralOpens(m);
    ObjectLiteralCloses(m);
    SingleLiteralMatch(m, DataOpen);
  }

  /** A text that opens with the pattern and whose first `]}` after it ends the text is one whole match. */
  lemma SingleLiteralMatch(s: string, open: string)
    requires open != [] && |open| + 2 <= |s|
    requires IndexOfFrom(s, open, 0) == Some(0)
    requires IndexOfFrom(s, "]}", |open|) == Some(|s| - 2)
    ensures LiteralMatches(s, open) == [s]
  {
    WholeLiteral(s, open);
    LiteralMatchesStep(s, open, 0, 0, |s|);
    NoMatchAtEnd(s, open);
    assert s[0..|s|] == s;
  }

  /** The next match from the start of such a text is the whole text. */
  lemma WholeLiteral(s: string, open: string)
    requires |open| + 2 <= |s|
    requires IndexOfFrom(s, open, 0) == Some(0)
    requires IndexOfFrom(s, "]}", |open|) == Some(|s| - 2)
    ensures NextLiteral(s, open, 0) == Some(Span(0, |s|))
  {
    NextLiteralIs(s, open, 0, 0, |s|);
  }

  /** The next match runs from the first opening to the end of the first `]}` after it. */
  lemma NextLiteralIs(s: string, open: string, from: nat, i: nat, end: nat)
    requires 2 <= end
    requires IndexOfFrom(s, open, from) == Some(i)
    requires IndexOfFrom(s, "]}", i + |open|) == Some(end - 2)
    ensures NextLiteral(s, open, from) == Some(Span(i, end))
  {
  }

  /** Nothing matches a non-empty opening at the end of the text. */
  lemma NoMatchAtEnd(s: string, open: string)
    requires open != []
    ensures LiteralMatchesFrom(s, open, |s|) == []
  {
    assert IndexOfFrom(s, open, |s|) == None;
    assert NextLiteral(s, open, |s|) == None;
  }

  /** `data={[` opens the text. */
  lemma ObjectLiteralOpens(m: string)
    requires m == "data={[{}]}"
    ensures IndexOfFrom(m, DataOpen, 0) == Some(0)
  {
    assert m[0..7] == DataOpen;
  }

  /** The first `]}` after the opening is the last two characters. */
  lemma ObjectLiteralCloses(m: string)
    requires m == "data={[{}]}"
    ensures IndexOfFrom(m, "]}", 7) == Some(9)
  {
    assert m[7..9][0] != "]}"[0];
    assert m[8..10][0] != "]}"[0];
    assert m[9..11] == "]}";
    assert IndexOfFrom(m, "]}", 9) == Some(9);
    assert IndexOfFrom(m, "]}", 8) == Some(9);
  }

  lemma ObjectLiteralAsWritten()
    ensures DataLiteralTextAsWritten("data={[{}]}") == "[{]}"
  {
    var m := "data={[{}]}";
    ObjectLiteralCaptured();
    DropsOpening(m);
    assert m[6..] == "[{}]}";
    InnerBraceRemoved("[{}]}");
  }

  /** The second replacement removes the object's `}`, not the array's. */
  lemma InnerBraceRemoved(rest: string)
    requires rest == "[{}]}"
    ensures ReplaceFirst(rest, "}", "") == "[{]}"
  {
    assert !OccursAt(rest, "}", 0) by {
      assert rest[0..1][0] != "}"[0];
    }
    assert !OccursAt(rest, "}", 1) by {
      assert rest[1..2][0] != "}"[0];
    }
    assert rest[2..3] == "}";
    IndexOfFromFirst(rest, "}", 0, 2);
    assert rest[..2] == "[{" && rest[3..] == "]}";
  }

  predicate AllDataMatches(ms: seq<string>) {
    forall k :: 0 <= k < |ms| ==> IsDataMatch(ms[k])
  }

  /** Every chart-data match has the shape the extraction expects. */
  lemma DataLiteralsShape(s: string)
    ensures AllDataMatches(DataLiterals(s))
  {
    var ms := DataLiterals(s);
    assert ms == LiteralMatchesFrom(s, DataOpen, 0);
    forall k | 0 <= k < |ms|
      ensures IsDataMatch(ms[k])
    {
      assert MatchShaped(ms[k], DataOpen);
    }
  }

  /** The issue a literal gets when evaluating it, or reading an item's fields, throws. */
  const SyntaxIssue: string := "Invalid chart data syntax"

  function ChartItemIssue(index: nat): string {
    "Invalid chart data format at index " + NatToString(index) + ": requires {name: string, value: number}"
  }

  /** An item the lint accepts: an object whose `name` is a string and whose `value` is a number. */
  predicate ChartShaped(item: Js) {
    TypeOf(item) == "object" && item != Null && TypeOf(Prop(item, "name")) == "string" && TypeOf(Prop(item, "value")) == "number"
  }

  /**
   * The issues of the items from index `i` on, in order. A `null` item
   * passes the `typeof` test, so reading its `name` throws: the pass stops
   * there and the literal gets the syntax issue after those already pushed.
   */
  function ItemIssuesFrom(items: seq<Js>, i: nat): (r: seq<string>)
    requires i <= |items|
    decreases |items| - i
    ensures |r| <= |items| - i + 1
    ensures SyntaxIssue in r <==> Null in items[i..]
    ensures SyntaxIssue in r ==> r[|r| - 1] == SyntaxIssue
  {
    if i == |items| then []
    else if items[i] == Null then [SyntaxIssue]
    else (if ChartShaped(items[i]) then [] else [ChartItemIssue(i)]) + ItemIssuesFrom(items, i + 1)
  }

  /** The items raise no issue exactly when every one of them is chart-shaped. */
  lemma {:induction false} ItemIssuesEmptyIff(items: seq<Js>, i: nat)
    requires i <= |items|
    ensures ItemIssuesFrom(items, i) == [] <==> forall k :: i <= k < |items| ==> ChartShaped(items[k])
    decreases |items| - i
  {
    if i < |items| {
      if items[i] == Null {
        assert !ChartShaped(items[i]);
      } else {
        var head := if ChartShaped(items[i]) then [] else [ChartItemIssue(i)];
        assert ItemIssuesFrom(items, i) == head + ItemIssuesFrom(items, i + 1);
        ItemIssuesEmptyIff(items, i + 1);
        if ChartShaped(items[i]) {
          assert ItemIssuesFrom(items, i) == ItemIssuesFrom(items, i + 1);
        } else {
          assert |ItemIssuesFrom(items, i)| > 0;
        }
      }
    }
  }

  /**
   * The lint is looser than the chart validator: a literal the validator
   * accepts raises no item issue (the validator further rejects `NaN` and
   * infinite values).
   */
  lemma ValidatorAcceptedPassesLint(items: seq<Js>)
    requires Validation.Rejected(items, Validation.CheckChartItem) == []
    ensures ItemIssuesFrom(items, 0) == []
  {
    Validation.NoRejectionIff(items, Validation.CheckChartItem);
    forall k | 0 <= k < |items|
      ensures ChartShaped(items[k])
    {
      assert Validation.CheckChartItem(items[k], k).Accept?;
    }
    ItemIssuesEmptyIff(items, 0);
  }

  /** A `NaN` value passes the lint but not the chart validator. */
  lemma NaNPassesLintOnly()
    ensures ItemIssuesFrom([Obj(map["name" := Str("a"), "value" := Num(NaN)])], 0) == []
    ensures Validation.Rejected([Obj(map["name" := Str("a"), "value" := Num(NaN)])], Validation.CheckChartItem) != []
  {
    var item := Obj(map["name" := Str("a"), "value" := Num(NaN)]);
    assert Prop(item, "name") == Str("a") && Prop(item, "value") == Num(NaN);
    assert [item][..0] == [];
  }

  /**
   * The issues of one literal's array text: the syntax issue when `eval`
   * throws, the item issues when it yields an array, none otherwise.
   */
  function LiteralCheck(text: string, evalLiteral: string -> Result<Js, Thrown>): (r: seq<string>)
    ensures evalLiteral(text).Failure? ==> r == [SyntaxIssue]
  {
    match evalLiteral(text)
    case Failure(_) => [SyntaxIssue]
    case Success(v) => if v.Arr? then ItemIssuesFrom(v.elems, 0) else []
  }

  /** A literal raises nothing exactly when `eval` succeeds and yields a non-array or chart-shaped items. */
  lemma LiteralCheckEmptyIff(text: string, evalLiteral: string -> Result<Js, Thrown>)
    ensures LiteralCheck(text, evalLiteral) == [] <==> (evalLiteral(text).Success? &&
      (evalLiteral(text).value.Arr? ==> forall k :: 0 <= k < |evalLiteral(text).value.elems| ==> ChartShaped(evalLiteral(text).value.elems[k])))
  {
    if evalLiteral(text).Success? && evalLiteral(text).value.Arr? {
      ItemIssuesEmptyIff(evalLiteral(text).value.elems, 0);
    }
  }

  /** The issues of a pass over a sequence, one group per element, in order. */
  function Grouped<E>(ms: seq<E>, check: E -> seq<string>): seq<string>
    decreases |ms|
  {
    if ms == [] then []
    else
      var n := |ms| - 1;
      Grouped(ms[..n], check) + check(ms[n])
  }

  /** Such a pass raises nothing exactly when no element raises anything. */
  lemma {:induction false} GroupedEmptyIff<E>(ms: seq<E>, check: E -> seq<string>)
    ensures Grouped(ms, check) == [] <==> forall k :: 0 <= k < |ms| ==> check(ms[k]) == []
  {
    if ms != [] {
      var n := |ms| - 1;
      var earlier, last := Grouped(ms[..n], check), check(ms[n]);
      assert Grouped(ms, check) == earlier + last;
      assert earlier + last == [] <==> earlier == [] && last == [] by {
        assert |earlier + last| == |earlier| + |last|;
      }
      GroupedEmptyIff(ms[..n], check);
      assert forall k :: 0 <= k < n ==> ms[..n][k] == ms[k];
    }
  }

  /** The check of one match: evaluate the text `extract` makes of it. */
  function LiteralCheckOf(extract: string -> string, evalLiteral: string -> Result<Js, Thrown>): string -> seq<string> {
    m => LiteralCheck(extract(m), evalLiteral)
  }

  /**
   * The issues the data-literal pass adds, one group per literal in order;
   * `extract` is the text of a match the pass hands to `eval`.
   */
  function LiteralIssues(ms: seq<string>, extract: string -> string, evalLiteral: string -> Result<Js, Thrown>): seq<string> {
    Grouped(ms, LiteralCheckOf(extract, evalLiteral))
  }

  /** The data-literal pass raises nothing exactly when no literal raises anything. */
  lemma LiteralIssuesEmptyIff(ms: seq<string>, extract: string -> string, evalLiteral: string -> Result<Js, Thrown>)
    ensures LiteralIssues(ms, extract, evalLiteral) == [] <==>
      forall k :: 0 <= k < |ms| ==> LiteralCheck(extract(ms[k]), evalLiteral) == []
  {
    GroupedEmptyIff(ms, LiteralCheckOf(extract, evalLiteral));
  }

  method CheckComponents(components: seq<string>) returns (issues: seq<string>)
    ensures issues == UnknownComponentIssues(components)
  {
    issues := [];
    var i := 0;
    while i < |components|
      invariant 0 <= i <= |components|
      invariant issues == UnknownComponentIssues(components[..i])
    {
      assert components[..i + 1][..i] == components[..i];
      if components[i] !in KnownComponents {
        issues := issues + ["Unknown component: " + components[i]];
      }
      i := i + 1;
    }
    assert components[..i] == components;
  }

  /** The data-literal pass of the lint: the issues of each literal, in order. */
  method CheckDataLiterals(dataMatches: seq<string>, extract: string -> string, evalLiteral: string -> Result<Js, Thrown>)
    returns (issues: seq<string>)
    ensures issues == LiteralIssues(dataMatches, extract, evalLiteral)
  {
    issues := [];
    var j := 0;
    while j < |dataMatches|
      invariant 0 <= j <= |dataMatches|
      invariant issues == LiteralIssues(dataMatches[..j], extract, evalLiteral)
    {
      var next := dataMatches[..j + 1];
      assert next[..j] == dataMatches[..j];
      assert next[j] == dataMatches[j];
      issues := issues + LiteralCheck(extract(dataMatches[j]), evalLiteral);
      j := j + 1;
    }
    assert dataMatches[..j] == dataMatches;
  }

  /**
   * `validateMDXContent`: one "Unknown component: X" per `<X` whose name is
   * outside the whitelist, in text order, then the issues of each chart-data
   * literal; valid exactly when there is no issue.
   */
  method ValidateMdxContent(content: string, evalLiteral: string -> Result<Js, Thrown>) returns (r: LintResult)
    ensures r.valid <==> r.issues == []
    ensures AllDataMatches(DataLiterals(content))
    ensures r.issues == UnknownComponentIssues(ComponentTokens(content))
      + LiteralIssues(DataLiterals(content), DataLiteralTextAsWritten, evalLiteral)
  {
    var componentIssues := CheckComponents(ComponentTokens(content));
    DataLiteralsShape(content);
    var literalIssues := CheckDataLiterals(DataLiterals(content), DataLiteralTextAsWritten, evalLiteral);
    var issues := componentIssues + literalIssues;
    r := LintResult(|issues| == 0, issues);
  }

  /**
   * The lint passes a body exactly when every component it names is
   * whitelisted and every chart-data literal, as the code extracts it,
   * evaluates to something that raises no issue.
   */
  lemma LintCleanIff(content: string, evalLiteral: string -> Result<Js, Thrown>)
    ensures UnknownComponentIssues(ComponentTokens(content)) + LiteralIssues(DataLiterals(content), DataLiteralTextAsWritten, evalLiteral) == [] <==>
      (forall k :: 0 <= k < |ComponentTokens(content)| ==> ComponentTokens(content)[k] in KnownComponents) &&
      (forall k :: 0 <= k < |DataLiterals(content)| ==> LiteralCheck(DataLiteralTextAsWritten(DataLiterals(content)[k]), evalLiteral) == [])
  {
    UnknownComponentIssuesEmptyIff(ComponentTokens(content));
    LiteralIssuesEmptyIff(DataLiterals(content), DataLiteralTextAsWritten, evalLiteral);
  }

  // ---------------------------------------------------------------------
  // The extraction the lint evidently intends
  // ---------------------------------------------------------------------

  /** The data-literal pass as intended: each literal's captured array is handed to `eval`. */
  function IntendedLiteralIssues(ms: seq<string>, evalLiteral: string -> Result<Js, Thrown>): seq<string>
    requires AllDataMatches(ms)
    decreases |ms|
  {
    if ms == [] then []
    else
      var n := |ms| - 1;
      assert AllDataMatches(ms[..n]);
      IntendedLiteralIssues(ms[..n], evalLiteral) + LiteralCheck(DataLiteralText(ms[n]), evalLiteral)
  }

  /** The only `}` of the match is its last character: the array holds no object. */
  predicate NoInnerBrace(m: string) {
    forall k :: 0 <= k < |m| - 1 ==> m[k] != '}'
  }

  /** Without an inner `}`, the code's replace chain extracts exactly the captured array. */
  lemma ExtractionAgrees(m: string)
    requires IsDataMatch(m) && NoInnerBrace(m)
    ensures DataLiteralTextAsWritten(m) == DataLiteralText(m)
  {
    AsWrittenStrips(m);
    CapturedStrips(m);
  }

  /** The replace chain as written strips `data={` and the final `}`. */
  lemma AsWrittenStrips(m: string)
    requires IsDataMatch(m) && NoInnerBrace(m)
    ensures DataLiteralTextAsWritten(m) == m[6..|m| - 1]
  {
    DropsOpening(m);
    DropsLastBrace(m);
  }

  /** The captured group is the match without `data={` and the final `}`. */
  lemma CapturedStrips(m: string)
    requires IsDataMatch(m)
    ensures DataLiteralText(m) == m[6..|m| - 1]
  {
  }

  /** The first replacement removes the leading `data={`. */
  lemma DropsOpening(m: string)
    requires IsDataMatch(m)
    ensures ReplaceFirst(m, "data={", "") == m[6..]
  {
    assert m[..7] == DataOpen;
    assert m[0..6] == "data={" by {
      assert m[0..6] == m[..7][..6];
    }
    IndexOfFromFirst(m, "data={", 0, 0);
  }

  /** The second replacement removes the only `}`, the last character. */
  lemma DropsLastBrace(m: string)
    requires IsDataMatch(m) && NoInnerBrace(m)
    ensures ReplaceFirst(m[6..], "}", "") == m[6..|m| - 1]
  {
    var t := m[6..];
    assert m[|m| - 2..] == "]}";
    assert t[|t| - 1] == m[|m| - 2..][1];
    forall k | 0 <= k < |t| - 1
      ensures t[k] != '}'
    {
      assert t[k] == m[k + 6];
    }
    LastBraceOnly(t);
    assert t[..|t| - 1] == m[6..|m| - 1];
  }

  lemma LastBraceOnly(t: string)
    requires t != [] && t[|t| - 1] == '}'
    requires forall k :: 0 <= k < |t| - 1 ==> t[k] != '}'
    ensures ReplaceFirst(t, "}", "") == t[..|t| - 1]
  {
    assert t[|t| - 1..|t|] == "}";
    forall k | 0 <= k < |t| - 1
      ensures !OccursAt(t, "}", k)
    {
      assert t[k..k + 1] == [t[k]];
    }
    IndexOfFromFirst(t, "}", 0, |t| - 1);
  }

  /** On literals without an inner `}`, the lint as written and as intended raise the same issues. */
  lemma {:induction false} LiteralIssuesAgree(ms: seq<string>, evalLiteral: string -> Result<Js, Thrown>)
    requires AllDataMatches(ms)
    requires forall k :: 0 <= k < |ms| ==> NoInnerBrace(ms[k])
    ensures LiteralIssues(ms, DataLiteralTextAsWritten, evalLiteral) == IntendedLiteralIssues(ms, evalLiteral)
  {
    if ms != [] {
      var n := |ms| - 1;
      assert AllDataMatches(ms[..n]);
      assert forall k :: 0 <= k < n ==> ms[..n][k] == ms[k];
      LiteralIssuesAgree(ms[..n], evalLiteral);
      ExtractionAgrees(ms[n]);
    }
  }

  /**
   * On `data={[{}]}` the lint as written evaluates `[{]}` (which JavaScript
   * rejects as a syntax error), while the intended lint evaluates the array `[{}]`.
   */
  lemma ObjectLiteralLint(evalLiteral: string -> Result<Js, Thrown>)
    ensures LiteralIssues(DataLiterals("data={[{}]}"), DataLiteralTextAsWritten, evalLiteral) == LiteralCheck("[{]}", evalLiteral)
    ensures AllDataMatches(DataLiterals("data={[{}]}"))
    ensures IntendedLiteralIssues(DataLiterals("data={[{}]}"), evalLiteral) == LiteralCheck("[{}]", evalLiteral)
  {
    AsWrittenExtractionBreaksObjectLiterals();
    ObjectLiteralCaptured();
    var ms := ["data={[{}]}"];
    assert ms[..0] == [];
  }
}
