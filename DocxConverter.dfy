/** The word-processor converter `DocxToDocument`: for each source, read its
    bytes, parse them as a docx file, and produce a document whose content is
    the paragraph texts joined by newlines and whose metadata merges the
    source's own metadata, the file's core properties and the caller's
    metadata. A source that cannot be read or parsed is skipped. Reading a
    source and parsing bytes are supplied by the caller, as functions that may
    fail. */
module DocxConverter {
  import opened Wrappers
  import Strings

  /** A metadata value (Python `Any` restricted to what the properties hold). */
  datatype Value = Null | Str(s: string) | Int(i: int) | DateTime(iso: string)

  type Meta = map<string, Value>

  datatype ByteStream = ByteStream(data: seq<bv8>, meta: Meta)

  /** A file path or an in-memory byte stream. */
  datatype Source = Path(path: string) | Stream(stream: ByteStream)

  /** What the docx library offers for a parsed file: the text of each
      paragraph, and the core-properties attributes by name (an attribute the
      object lacks is absent from the map). */
  datatype DocxFile = DocxFile(paragraphs: seq<string>, coreProperties: map<string, Value>)

  datatype Document = Document(content: string, meta: Meta)

  /** The `meta` argument: absent, one dictionary for all sources, or one per
      source. */
  datatype MetaArg = NoMeta | Shared(shared: Meta) | PerSource(each: seq<Meta>)

  datatype ConvertError = MetaLengthMismatch

  /** The core properties copied into a document's metadata, in order. */
  const Props: seq<string> := [
    "author", "category", "comments", "content_status", "created",
    "identifier", "keywords", "language", "last_modified_by", "last_printed",
    "modified", "revision", "subject", "title", "version"]

  const Prefix: string := "docx_"

  /** The metadata key of property `p`. */
  function Key(p: string): (k: string)
    ensures |k| == |Prefix| + |p| && k[..|Prefix|] == Prefix && k[|Prefix|..] == p
  {
    Prefix + p
  }

  /** A property is copied when the object has it and its value is neither
      `None` nor the empty string. */
  predicate Kept(props: map<string, Value>, p: string) {
    p in props && props[p] != Null && props[p] != Str("")
  }

  /** The metadata built from the properties named by `ps`, visited in order. */
  function MetaFrom(props: map<string, Value>, ps: seq<string>): Meta {
    if |ps| == 0 then map[]
    else
      var m := MetaFrom(props, ps[..|ps| - 1]);
      var p := ps[|ps| - 1];
      if Kept(props, p) then m[Key(p) := props[p]] else m
  }

  /** Exactly the kept properties named by `ps` appear, under their prefixed
      keys, with their own values. */
  lemma {:induction false} MetaFromContents(props: map<string, Value>, ps: seq<string>)
    ensures forall p :: p in ps ==> (Key(p) in MetaFrom(props, ps) <==> Kept(props, p))
    ensures forall p :: p in ps && Kept(props, p) ==> MetaFrom(props, ps)[Key(p)] == props[p]
    ensures forall k :: k in MetaFrom(props, ps) ==> |k| >= |Prefix| && k[..|Prefix|] == Prefix && k[|Prefix|..] in ps
  {
    if |ps| > 0 {
      var init, last := ps[..|ps| - 1], ps[|ps| - 1];
      MetaFromContents(props, init);
      assert ps == init + [last];
      forall p | p in ps
        ensures Key(p) in MetaFrom(props, ps) <==> Kept(props, p)
        ensures Kept(props, p) ==> MetaFrom(props, ps)[Key(p)] == props[p]
      {
        if p != last {
          assert Key(p)[|Prefix|..] != Key(last)[|Prefix|..];
          assert p in init;
        }
      }
    }
  }

  /** `_get_docx_metadata`. */
  method GetDocxMetadata(document: DocxFile) returns (docxMeta: Meta)
    ensures docxMeta == MetaFrom(document.coreProperties, Props)
    ensures forall p :: p in Props ==> (Key(p) in docxMeta <==> Kept(document.coreProperties, p))
    ensures forall p :: p in Props && Kept(document.coreProperties, p) ==> docxMeta[Key(p)] == document.coreProperties[p]
    ensures forall k :: k in docxMeta ==> |k| >= |Prefix| && k[..|Prefix|] == Prefix && k[|Prefix|..] in Props
  {
    var props := document.coreProperties;
    docxMeta := map[];
    for i := 0 to |Props|
      invariant docxMeta == MetaFrom(props, Props[..i])
    {
      var prop := Props[i];
      assert Props[..i + 1][..i] == Props[..i];
      if prop in props {
        var value := props[prop];
        if value != Null && value != Str("") {
          docxMeta := docxMeta[Key(prop) := value];
        }
      }
    }
    assert Props[..|Props|] == Props;
    MetaFromContents(props, Props);
  }

  /** `{**streamMeta, **docxMeta, **callerMeta}`: every key of the three, the
      later dictionary winning on a shared key. */
  function MergeMeta(streamMeta: Meta, docxMeta: Meta, callerMeta: Meta): (m: Meta)
    ensures m.Keys == streamMeta.Keys + docxMeta.Keys + callerMeta.Keys
    ensures forall k :: k in callerMeta ==> m[k] == callerMeta[k]
    ensures forall k :: k in docxMeta && k !in callerMeta ==> m[k] == docxMeta[k]
    ensures forall k :: k in streamMeta && k !in docxMeta && k !in callerMeta ==> m[k] == streamMeta[k]
  {
    streamMeta + docxMeta + callerMeta
  }

  /** `normalize_metadata`: one dictionary per source. No metadata gives empty
      dictionaries, one dictionary is repeated, and a list must have one entry
      per source. */
  function NormalizeMetadata(meta: MetaArg, sourcesCount: nat): (r: Result<seq<Meta>, ConvertError>)
    ensures r.Failure? <==> meta.PerSource? && |meta.each| != sourcesCount
    ensures r.Success? ==> |r.value| == sourcesCount
    ensures r.Success? && meta.NoMeta? ==> forall i :: 0 <= i < sourcesCount ==> r.value[i] == map[]
    ensures r.Success? && meta.Shared? ==> forall i :: 0 <= i < sourcesCount ==> r.value[i] == meta.shared
    ensures r.Success? && meta.PerSource? ==> r.value == meta.each
  {
    match meta
    case NoMeta => Success(seq(sourcesCount, _ => map[]))
    case Shared(m) => Success(seq(sourcesCount, _ => m))
    case PerSource(ms) => if |ms| == sourcesCount then Success(ms) else Failure(MetaLengthMismatch)
  }

  /** `zip(a, b)`: pairs up to the shorter length. */
  function Zip<A, B>(a: seq<A>, b: seq<B>): (z: seq<(A, B)>)
    ensures |z| == if |a| <= |b| then |a| else |b|
    ensures forall i :: 0 <= i < |z| ==> z[i] == (a[i], b[i])
  {
    seq(if |a| <= |b| then |a| else |b|, i requires 0 <= i < |a| && i < |b| => (a[i], b[i]))
  }

  /** The document one source yields, or nothing when it cannot be read or
      parsed. */
  function ConvertOne(
    item: (Source, Meta),
    fetch: Source -> Option<ByteStream>,
    parse: seq<bv8> -> Option<DocxFile>): Option<Document>
  {
    match fetch(item.0)
    case None => None
    case Some(bytestream) =>
      match parse(bytestream.data)
      case None => None
      case Some(file) =>
        Some(Document(
          Strings.Join(file.paragraphs, '\n'),
          MergeMeta(bytestream.meta, MetaFrom(file.coreProperties, Props), item.1)))
  }

  /** The documents a list of (source, metadata) pairs yields, in order. */
  function ConvertAll(
    items: seq<(Source, Meta)>,
    fetch: Source -> Option<ByteStream>,
    parse: seq<bv8> -> Option<DocxFile>): seq<Document>
  {
    if |items| == 0 then []
    else
      var n := |items| - 1;
      ConvertAll(items[..n], fetch, parse)
        + match ConvertOne(items[n], fetch, parse) case None => [] case Some(d) => [d]
  }

  /** `DocxToDocument.run`. */
  method Run(
    sources: seq<Source>,
    meta: MetaArg,
    fetch: Source -> Option<ByteStream>,
    parse: seq<bv8> -> Option<DocxFile>)
    returns (r: Result<seq<Document>, ConvertError>)
    ensures NormalizeMetadata(meta, |sources|).Failure? ==> r == Failure(MetaLengthMismatch)
    ensures NormalizeMetadata(meta, |sources|).Success? ==>
      r == Success(ConvertAll(Zip(sources, NormalizeMetadata(meta, |sources|).value), fetch, parse))
  {
    var metaList :- NormalizeMetadata(meta, |sources|);
    var items := Zip(sources, metaList);
    var documents: seq<Document> := [];
    for i := 0 to |items|
      invariant documents == ConvertAll(items[..i], fetch, parse)
    {
      assert items[..i + 1][..i] == items[..i];
      var (source, metadata) := items[i];
      var bytestream := fetch(source);
      if bytestream.None? {
        continue;
      }
      var file := parse(bytestream.value.data);
      if file.None? {
        continue;
      }
      var text := Strings.Join(file.value.paragraphs, '\n');
      var docxMeta := GetDocxMetadata(file.value);
      var mergedMetadata := MergeMeta(bytestream.value.meta, docxMeta, metadata);
      documents := documents + [Document(text, mergedMetadata)];
    }
    assert items[..|items|] == items;
    return Success(documents);
  }

  // ---------------------------------------------------------------------
  // Properties of the conversion

  /** Converting two runs of sources one after the other gives the documents
      of the first followed by those of the second. */
  lemma {:induction false} ConvertAllAppend(
    a: seq<(Source, Meta)>, b: seq<(Source, Meta)>,
    fetch: Source -> Option<ByteStream>, parse: seq<bv8> -> Option<DocxFile>)
    ensures ConvertAll(a + b, fetch, parse) == ConvertAll(a, fetch, parse) + ConvertAll(b, fetch, parse)
    decreases |b|
  {
    if |b| == 0 {
      assert a + b == a;
    } else {
      var n := |b| - 1;
      assert (a + b)[..|a + b| - 1] == a + b[..n];
      assert (a + b)[|a + b| - 1] == b[n];
      ConvertAllAppend(a, b[..n], fetch, parse);
    }
  }

  /** A source that cannot be read or parsed contributes nothing and does not
      stop the sources after it. */
  lemma SkipUnreadable(
    before: seq<(Source, Meta)>, bad: (Source, Meta), after: seq<(Source, Meta)>,
    fetch: Source -> Option<ByteStream>, parse: seq<bv8> -> Option<DocxFile>)
    requires ConvertOne(bad, fetch, parse).None?
    ensures ConvertAll(before + [bad] + after, fetch, parse)
         == ConvertAll(before, fetch, parse) + ConvertAll(after, fetch, parse)
  {
    var single := ConvertAll([bad], fetch, parse);
    assert single == [] by {
      assert [bad][..0] == [];
      assert [bad][0] == bad;
      assert ConvertAll([], fetch, parse) == [];
    }
    ConvertAllAppend(before + [bad], after, fetch, parse);
    ConvertAllAppend(before, [bad], fetch, parse);
    assert ConvertAll(before + [bad], fetch, parse) == ConvertAll(before, fetch, parse) + single;
  }

  /** Never more documents than sources; exactly one per source, in source
      order, when every source converts. */
  lemma {:induction false} ConvertAllLength(
    items: seq<(Source, Meta)>,
    fetch: Source -> Option<ByteStream>, parse: seq<bv8> -> Option<DocxFile>)
    ensures |ConvertAll(items, fetch, parse)| <= |items|
    ensures (forall i :: 0 <= i < |items| ==> ConvertOne(items[i], fetch, parse).Some?) ==>
      && |ConvertAll(items, fetch, parse)| == |items|
      && forall i :: 0 <= i < |items| ==> ConvertAll(items, fetch, parse)[i] == ConvertOne(items[i], fetch, parse).value
  {
    if |items| > 0 {
      var n := |items| - 1;
      ConvertAllLength(items[..n], fetch, parse);
      assert forall i :: 0 <= i < n ==> items[..n][i] == items[i];
    }
  }

  /** Every document comes from one of the sources. */
  lemma {:induction false} ConvertAllFromSources(
    items: seq<(Source, Meta)>,
    fetch: Source -> Option<ByteStream>, parse: seq<bv8> -> Option<DocxFile>)
    ensures forall d :: d in ConvertAll(items, fetch, parse) ==>
      exists i :: 0 <= i < |items| && ConvertOne(items[i], fetch, parse) == Some(d)
  {
    if |items| > 0 {
      var n := |items| - 1;
      ConvertAllFromSources(items[..n], fetch, parse);
      forall d | d in ConvertAll(items, fetch, parse)
        ensures exists i :: 0 <= i < |items| && ConvertOne(items[i], fetch, parse) == Some(d)
      {
        if d in ConvertAll(items[..n], fetch, parse) {
          var i :| 0 <= i < n && ConvertOne(items[..n][i], fetch, parse) == Some(d);
          assert items[..n][i] == items[i];
        } else {
          assert ConvertOne(items[n], fetch, parse) == Some(d);
        }
      }
    }
  }

  /** The content of a converted document gives back the paragraphs when split
      on newlines, provided there was at least one paragraph and none holds a
      newline. */
  lemma ContentIsParagraphs(paragraphs: seq<string>)
    requires |paragraphs| > 0
    requires forall k, i :: 0 <= k < |paragraphs| && 0 <= i < |paragraphs[k]| ==> paragraphs[k][i] != '\n'
    ensures Strings.SplitOn(Strings.Join(paragraphs, '\n'), '\n') == paragraphs
  {
    Strings.SplitOnJoin(paragraphs, '\n');
  }
}
