/**
 * The document ingestion service: the in-memory metadata table keyed by a content-derived
 * document id, the `{document_id}_{file_name}` naming of stored uploads and its parsing
 * back on start-up, chunk numbering, listing and deletion.
 *
 * The storage directory is modelled by the set of names of the regular files in it;
 * reading the uploaded bytes, SHA-256 itself, the document reader, the sentence splitter,
 * the vector store and the clock are parameters.
 */
module Ingest {
  import opened Wrappers
  import opened Schemas
  import opened Nodes
  import Json

  newtype byte = x: int | 0 <= x < 256

  /** A string of lower-case hexadecimal digits. */
  predicate IsHex(s: string) {
    forall i :: 0 <= i < |s| ==> ('0' <= s[i] <= '9') || ('a' <= s[i] <= 'f')
  }

  /** `.hexdigest()`: two lower-case hex digits per byte, high nibble first. */
  function HexDigest(digest: seq<byte>): (h: string)
    ensures |h| == 2 * |digest| && IsHex(h)
  {
    if digest == [] then ""
    else [Json.HexDigit(digest[0] as int / 16), Json.HexDigit(digest[0] as int % 16)] + HexDigest(digest[1..])
  }

  /** The hex text of a prefix of the bytes is the matching prefix of the hex text. */
  lemma {:induction false} HexDigestPrefix(digest: seq<byte>, n: nat)
    requires n <= |digest|
    ensures HexDigest(digest)[..2 * n] == HexDigest(digest[..n])
  {
    if n > 0 {
      HexDigestPrefix(digest[1..], n - 1);
      assert digest[..n][1..] == digest[1..][..n - 1];
    }
  }

  /** `hashlib.sha256(content_bytes).hexdigest()[:16]` for the 32-byte SHA-256 digest of
      the upload (FIPS 180-4, section 6.2): the hex text of the digest's first eight bytes,
      sixteen lower-case hex digits, so never containing '_'. */
  function DocumentId(digest: seq<byte>): (id: string)
    requires |digest| == 32
    ensures |id| == 16 && IsHex(id) && '_' !in id
    ensures id == HexDigest(digest[..8])
  {
    HexDigestPrefix(digest, 8);
    HexDigest(digest)[..16]
  }

  /** The name an upload is stored under: `f"{document_id}_{file_name}"`. */
  function StoredName(documentId: string, fileName: string): string {
    documentId + "_" + fileName
  }

  /** The position of the first `c` in `s`. */
  function FirstIndex(s: string, c: char): (i: nat)
    requires c in s
    ensures i < |s| && s[i] == c && c !in s[..i]
  {
    if s[0] == c then 0
    else
      assert c in s[1..];
      var j := FirstIndex(s[1..], c);
      assert s[..j + 1] == [s[0]] + s[1..][..j];
      j + 1
  }

  /** `s.split(sep, 1)` for a one-character separator: the whole string when `sep` does not
      occur, otherwise the text before its first occurrence and everything after it. */
  function SplitOnce(s: string, sep: char): (parts: seq<string>)
    ensures sep !in s ==> parts == [s]
    ensures sep in s ==> |parts| == 2 && s == parts[0] + [sep] + parts[1] && sep !in parts[0]
  {
    if sep !in s then [s]
    else
      var i := FirstIndex(s, sep);
      assert s == s[..i] + [sep] + s[i + 1..];
      [s[..i], s[i + 1..]]
  }

  /** Splitting a stored name once on "_" gives back the document id and the file name,
      whatever the file name holds, because the id holds no "_". */
  lemma StoredNameSplits(documentId: string, fileName: string)
    requires '_' !in documentId
    ensures SplitOnce(StoredName(documentId, fileName), '_') == [documentId, fileName]
  {
    var s := StoredName(documentId, fileName);
    assert s[..|documentId|] == documentId && s[|documentId|] == '_';
    assert s[|documentId| + 1..] == fileName;
  }

  /** Two stored names of different ids never clash. */
  lemma StoredNamesDistinct(id1: string, f1: string, id2: string, f2: string)
    requires '_' !in id1 && '_' !in id2 && id1 != id2
    ensures StoredName(id1, f1) != StoredName(id2, f2)
  {
    StoredNameSplits(id1, f1);
    StoredNameSplits(id2, f2);
  }

  /** An entry of the storage directory: its name, whether it is a regular file, the chunk
      count the vector store reports for the parsed id (0 when that lookup is unavailable or
      fails), and its modification time as ISO-8601 text. */
  datatype DiskEntry = DiskEntry(name: string, isFile: bool, chunkCount: int, modifiedAt: string)

  predicate IsHidden(name: string) {
    |name| > 0 && name[0] == '.'
  }

  /** How the start-up scan reads one directory entry: non-files, names starting with "."
      and names holding no "_" are skipped; otherwise the name splits into id and file name. */
  function ParseEntry(e: DiskEntry): (r: Option<(string, string)>)
    ensures r.None? <==> !e.isFile || IsHidden(e.name) || '_' !in e.name
    ensures r.Some? ==> StoredName(r.value.0, r.value.1) == e.name && '_' !in r.value.0
  {
    if !e.isFile || IsHidden(e.name) then None
    else
      var parts := SplitOnce(e.name, '_');
      if |parts| == 2 then Some((parts[0], parts[1])) else None
  }

  /** A stored upload is read back as its id and file name. */
  lemma ParseStoredUpload(documentId: string, fileName: string, chunkCount: int, modifiedAt: string)
    requires |documentId| > 0 && IsHex(documentId)
    ensures ParseEntry(DiskEntry(StoredName(documentId, fileName), true, chunkCount, modifiedAt)) ==
      Some((documentId, fileName))
  {
    StoredNameSplits(documentId, fileName);
  }

  /** The table the start-up scan builds from the entries in order: each parsed entry sets
      the row of its id, so a later entry with the same id wins. */
  function ScanTable(entries: seq<DiskEntry>): map<string, DocumentInfo> {
    if entries == [] then map[]
    else
      var last := entries[|entries| - 1];
      var before := ScanTable(entries[..|entries| - 1]);
      match ParseEntry(last)
      case Some((id, f)) => before[id := DocumentInfo(id, f, last.chunkCount, last.modifiedAt)]
      case None => before
  }

  /** The ids in the order the scan first inserts them. */
  function ScanOrder(entries: seq<DiskEntry>): seq<string> {
    if entries == [] then []
    else
      var last := entries[|entries| - 1];
      var before := ScanOrder(entries[..|entries| - 1]);
      match ParseEntry(last)
      case Some((id, _)) => if id in before then before else before + [id]
      case None => before
  }

  /** The entry parses to the given id. */
  predicate ParsesTo(e: DiskEntry, id: string) {
    ParseEntry(e).Some? && ParseEntry(e).value.0 == id
  }

  /** The row the scan builds from an entry that parses. */
  function RowOf(e: DiskEntry): DocumentInfo
    requires ParseEntry(e).Some?
  {
    DocumentInfo(ParseEntry(e).value.0, ParseEntry(e).value.1, e.chunkCount, e.modifiedAt)
  }

  /** The scanned table holds an id exactly when some entry parses to it. */
  lemma {:induction false} ScanTableKeys(entries: seq<DiskEntry>, id: string)
    ensures id in ScanTable(entries) <==> exists i :: 0 <= i < |entries| && ParsesTo(entries[i], id)
  {
    if entries != [] {
      var n := |entries| - 1;
      ScanTableKeys(entries[..n], id);
      assert forall i :: 0 <= i < n ==> entries[..n][i] == entries[i];
      if ParsesTo(entries[n], id) {
        assert id in ScanTable(entries);
      }
    }
  }

  /** The scanned row of an id is built from the last entry that parses to it. */
  lemma {:induction false} ScanTableLastWins(entries: seq<DiskEntry>, id: string, i: nat)
    requires i < |entries| && ParsesTo(entries[i], id)
    requires forall j :: i < j < |entries| ==> !ParsesTo(entries[j], id)
    ensures id in ScanTable(entries) && ScanTable(entries)[id] == RowOf(entries[i])
  {
    var n := |entries| - 1;
    if i < n {
      assert entries[..n][i] == entries[i];
      assert forall j :: i < j < n ==> entries[..n][j] == entries[j];
      ScanTableLastWins(entries[..n], id, i);
    }
  }

  /** The storage directory's regular files. */
  function FileNames(entries: seq<DiskEntry>): set<string> {
    set i | 0 <= i < |entries| && entries[i].isFile :: entries[i].name
  }

  /** What the vector store's deletion did: a Chroma store was asked to delete and did
      (`Deleted`) or raised (`Failed`); any other store is left alone (`NotImplemented`).
      The table and the files are updated the same way whatever it did. */
  datatype VectorStoreDeletion = Deleted | NotImplemented | Failed

  datatype IngestError = DocumentNotFound(documentId: string) {
    /** The text of the `ValueError`. */
    function Message(): string {
      match this
      case DocumentNotFound(id) => "Document " + id + " not found"
    }
  }

  /** No element of the sequence occurs twice. */
  predicate Distinct(s: seq<string>) {
    forall i, j :: 0 <= i < j < |s| ==> s[i] != s[j]
  }

  /** `s` with `x` taken out. */
  function Without(s: seq<string>, x: string): (r: seq<string>)
    ensures forall y :: y in r <==> y in s && y != x
    ensures Distinct(s) ==> Distinct(r)
    ensures x !in s ==> r == s
  {
    if s == [] then []
    else if s[0] == x then Without(s[1..], x)
    else
      assert Distinct(s) ==> Distinct(s[1..]) && s[0] !in s[1..];
      [s[0]] + Without(s[1..], x)
  }

  /** A sequence without repetitions has as many elements as its set. */
  lemma {:induction false} DistinctCardinality(s: seq<string>)
    requires Distinct(s)
    ensures |set x | x in s| == |s|
  {
    if s != [] {
      DistinctCardinality(s[1..]);
      assert (set x | x in s) == {s[0]} + (set x | x in s[1..]);
      assert s[0] !in (set x | x in s[1..]);
    }
  }

  /** The chunk-numbering loop: every node's metadata gets `chunk_index` = its position. */
  method NumberChunks(nodes: array<Node>)
    modifies nodes
    ensures forall i :: 0 <= i < nodes.Length ==>
      nodes[i] == old(nodes[i]).(metadata := old(nodes[i]).metadata.(chunkIndex := Some(i)))
  {
    for idx := 0 to nodes.Length
      invariant forall i :: 0 <= i < idx ==>
        nodes[i] == old(nodes[i]).(metadata := old(nodes[i]).metadata.(chunkIndex := Some(i)))
      invariant forall i :: idx <= i < nodes.Length ==> nodes[i] == old(nodes[i])
    {
      nodes[idx] := nodes[idx].(metadata := nodes[idx].metadata.(chunkIndex := Some(idx)));
    }
  }

  /** The loop that stamps every loaded document with the id, the file name and the time;
      the clock is read once per document, and `ingestedAt[i]` is the reading for document i. */
  method TagDocuments(documents: array<Node>, documentId: string, fileName: string, ingestedAt: seq<string>)
    requires |ingestedAt| == documents.Length
    modifies documents
    ensures forall i :: 0 <= i < documents.Length ==>
      documents[i] == old(documents[i]).(metadata := old(documents[i]).metadata.(
        documentId := Some(documentId), fileName := Some(fileName), ingestedAt := Some(ingestedAt[i])))
  {
    for k := 0 to documents.Length
      invariant forall i :: 0 <= i < k ==>
        documents[i] == old(documents[i]).(metadata := old(documents[i]).metadata.(
          documentId := Some(documentId), fileName := Some(fileName), ingestedAt := Some(ingestedAt[i])))
      invariant forall i :: k <= i < documents.Length ==> documents[i] == old(documents[i])
    {
      documents[k] := documents[k].(metadata := documents[k].metadata.(
        documentId := Some(documentId), fileName := Some(fileName), ingestedAt := Some(ingestedAt[k])));
    }
  }

  /** The table invariant: `order` lists each key of `metadata` once; each row is stored
      under its own id, which holds no "_"; and each row's upload is among the stored files. */
  ghost predicate TableValid(order: seq<string>, metadata: map<string, DocumentInfo>, storedFiles: set<string>) {
    && Distinct(order)
    && (forall id :: id in order <==> id in metadata)
    && (forall id | id in metadata ::
         metadata[id].documentId == id && '_' !in id &&
         StoredName(id, metadata[id].fileName) in storedFiles)
  }

  /** Setting the row of an id whose upload is stored keeps the invariant; the id joins the
      key order only when it is new. */
  lemma InsertKeepsValid(order: seq<string>, metadata: map<string, DocumentInfo>, storedFiles: set<string>,
                         info: DocumentInfo)
    requires TableValid(order, metadata, storedFiles)
    requires '_' !in info.documentId && StoredName(info.documentId, info.fileName) in storedFiles
    ensures TableValid(if info.documentId in metadata then order else order + [info.documentId],
                       metadata[info.documentId := info], storedFiles)
  {
  }

  class IngestService {
    /** The keys of `document_metadata` in insertion order. */
    var order: seq<string>
    /** `document_metadata`: document id to document info. */
    var metadata: map<string, DocumentInfo>
    /** The names of the regular files in the storage directory. */
    var storedFiles: set<string>

    /** The table invariant (see `TableValid`). */
    ghost predicate Valid()
      reads this
    {
      TableValid(order, metadata, storedFiles)
    }

    /** `IngestService.__init__` with `_load_metadata_from_disk`: the table starts empty
        and the scan fills it from the storage directory's entries, in listing order. */
    constructor (entries: seq<DiskEntry>)
      ensures Valid()
      ensures metadata == ScanTable(entries) && order == ScanOrder(entries)
      ensures storedFiles == FileNames(entries)
    {
      var files := FileNames(entries);
      var o: seq<string> := [];
      var m: map<string, DocumentInfo> := map[];
      var k := 0;
      while k < |entries|
        invariant 0 <= k <= |entries|
        invariant m == ScanTable(entries[..k]) && o == ScanOrder(entries[..k])
        invariant TableValid(o, m, files)
      {
        assert entries[..k + 1][..k] == entries[..k] && entries[..k + 1][k] == entries[k];
        var e := entries[k];
        match ParseEntry(e) {
          case Some((id, fileName)) =>
            assert StoredName(id, fileName) in files by {
              assert e.isFile && e.name == StoredName(id, fileName);
              assert entries[k].name in FileNames(entries);
            }
            var info := DocumentInfo(id, fileName, e.chunkCount, e.modifiedAt);
            InsertKeepsValid(o, m, files, info);
            if id !in m {
              o := o + [id];
            }
            m := m[id := info];
          case None =>
        }
        k := k + 1;
      }
      assert entries[..k] == entries;
      order := o;
      metadata := m;
      storedFiles := files;
    }

    /** `list_documents`: every row, in insertion order, and `total` is their number,
        which is the number of rows in the table. */
    function ListDocuments(): (r: ListDocumentsResponse)
      reads this
      requires Valid()
      ensures r.total == |r.documents| == |order| == |metadata|
      ensures forall i :: 0 <= i < |r.documents| ==> r.documents[i] == metadata[order[i]]
      ensures forall id :: id in metadata ==> metadata[id] in r.documents
    {
      DistinctCardinality(order);
      assert (set x | x in order) == metadata.Keys;
      var o, m := order, metadata;
      var documents := seq(|o|, i requires 0 <= i < |o| => m[o[i]]);
      assert forall id :: id in metadata ==> exists i :: 0 <= i < |order| && order[i] == id;
      ListDocumentsResponse(documents, |documents|)
    }

    /** `ingest_file`: the id is derived from the content's digest, the upload is stored as
        `{id}_{file_name}`, the loaded documents are stamped, split into nodes by `split`,
        and the nodes numbered 0..n-1; the row for the id is inserted or overwritten and
        the response reports the same n. `indexed` is what goes into the vector store.
        `taggedAt` holds the clock readings taken for the documents, one each, and
        `recordedAt` the later one taken for the table row. */
    method IngestFile(fileName: string, digest: seq<byte>, documents: array<Node>,
                      split: seq<Node> -> seq<Node>, taggedAt: seq<string>, recordedAt: string)
      returns (response: IngestResponse, indexed: seq<Node>)
      requires Valid() && |digest| == 32 && |taggedAt| == documents.Length
      modifies this, documents
      ensures Valid()
      ensures var id := DocumentId(digest);
        && response == IngestResponse(id, fileName, |indexed|, "success")
        && metadata == old(metadata)[id := DocumentInfo(id, fileName, |indexed|, recordedAt)]
        && order == (if id in old(metadata) then old(order) else old(order) + [id])
        && storedFiles == old(storedFiles) + {StoredName(id, fileName)}
        && documents[..] == seq(documents.Length, i requires 0 <= i < documents.Length =>
             old(documents[i]).(metadata := old(documents[i]).metadata.(
               documentId := Some(id), fileName := Some(fileName), ingestedAt := Some(taggedAt[i]))))
      ensures var produced := split(documents[..]);
        |indexed| == |produced| &&
        forall i :: 0 <= i < |indexed| ==>
          indexed[i] == produced[i].(metadata := produced[i].metadata.(chunkIndex := Some(i)))
    {
      var documentId := DocumentId(digest);
      storedFiles := storedFiles + {StoredName(documentId, fileName)};
      TagDocuments(documents, documentId, fileName, taggedAt);
      var produced := split(documents[..]);
      var nodes := new Node[|produced|](i requires 0 <= i < |produced| => produced[i]);
      NumberChunks(nodes);
      indexed := nodes[..];
      var info := DocumentInfo(documentId, fileName, nodes.Length, recordedAt);
      InsertKeepsValid(order, metadata, storedFiles, info);
      if documentId !in metadata {
        order := order + [documentId];
      }
      metadata := metadata[documentId := info];
      response := IngestResponse(documentId, fileName, nodes.Length, "success");
    }

    /** `delete_document`: an unknown id fails with "Document {id} not found" and changes
        nothing; a known id loses exactly its row and its stored upload, whatever the vector
        store did, and the response says "deleted". */
    method DeleteDocument(documentId: string, vectorStore: VectorStoreDeletion)
      returns (r: Result<DeleteDocumentResponse, IngestError>, deleteWhere: Option<string>)
      requires Valid()
      modifies this
      ensures Valid()
      ensures deleteWhere.Some? <==> documentId in old(metadata) && vectorStore != NotImplemented
      ensures deleteWhere.Some? ==> deleteWhere.value == old(metadata)[documentId].fileName
      ensures deleteWhere.Some? ==> forall other | other in metadata && metadata[other].fileName == deleteWhere.value ::
                other in old(metadata) && old(metadata)[other] == metadata[other] && other != documentId
      ensures documentId !in old(metadata) ==>
        r == Err(DocumentNotFound(documentId)) &&
        metadata == old(metadata) && order == old(order) && storedFiles == old(storedFiles)
      ensures documentId in old(metadata) ==>
        && r == Ok(DeleteDocumentResponse(documentId, "deleted"))
        && metadata == old(metadata) - {documentId}
        && order == Without(old(order), documentId)
        && storedFiles == old(storedFiles) - {StoredName(documentId, old(metadata)[documentId].fileName)}
    {
      if documentId !in metadata {
        return Err(DocumentNotFound(documentId)), None;
      }
      var info := metadata[documentId];
      // a Chroma store is asked to drop every chunk whose `file_name` is the row's file
      // name; its failure is logged and does not stop the rest
      deleteWhere := if vectorStore == NotImplemented then None else Some(info.fileName);
      metadata := metadata - {documentId};
      order := Without(order, documentId);
      var path := StoredName(documentId, info.fileName);
      if path in storedFiles {
        storedFiles := storedFiles - {path};
      }
      forall id | id in metadata
        ensures StoredName(id, metadata[id].fileName) != path
      {
        StoredNamesDistinct(id, metadata[id].fileName, documentId, info.fileName);
      }
      r := Ok(DeleteDocumentResponse(documentId, "deleted"));
    }
  }

  /** Ingesting the same bytes twice leaves one row for them, holding the later file name. */
  method IngestTwice(service: IngestService, name1: string, name2: string, digest: seq<byte>,
                     documents: array<Node>, split: seq<Node> -> seq<Node>, at1: string, at2: string)
    requires service.Valid() && |digest| == 32
    modifies service, documents
    ensures service.Valid()
    ensures var id := DocumentId(digest);
      && service.metadata.Keys == old(service.metadata.Keys) + {id}
      && service.metadata[id].fileName == name2
      && forall other :: other in old(service.metadata) && other != id ==>
           service.metadata[other] == old(service.metadata[other])
  {
    var r1, n1 := service.IngestFile(name1, digest, documents, split, seq(documents.Length, _ => at1), at1);
    var r2, n2 := service.IngestFile(name2, digest, documents, split, seq(documents.Length, _ => at2), at2);
  }
}
