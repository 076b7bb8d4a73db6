/**
 * How `streamMessage` turns its attachments into the text it sends: the
 * attachments are split into "rag-document" ones and the others, every
 * RAG document that can be read becomes a delimited block (cut to
 * `MAX_RAG_BYTES` characters when the file reports a larger size), and the
 * blocks, joined in attachment order, are put in front of the prompt.
 */
module RagDocuments {
  import opened Wrappers

  /** `MAX_RAG_BYTES`: the size above which a document is cut. */
  const MaxRagBytes: nat := 200_000

  /** The attachment `type` tag of a document to inline. */
  const RagDocumentType: string := "rag-document"

  /** A browser `File` as the hook sees it: its name, its `size` when that is
      a number, and what `file.text()` resolves to (None when it rejects). */
  datatype File = File(name: string, size: Option<nat>, text: Option<string>)

  /** A `FileAttachment`: its `type` tag and its file. */
  datatype Attachment = Attachment(kind: string, file: File)

  predicate IsRagDocument(a: Attachment) {
    a.kind == RagDocumentType
  }

  function Min(a: nat, b: nat): nat {
    if a <= b then a else b
  }

  // ---------------------------------------------------------------------------
  // Partition

  /** `attachments.filter((a) => a.type === "rag-document")`. */
  function RagAttachments(atts: seq<Attachment>): (r: seq<Attachment>)
    ensures |r| <= |atts|
  {
    if atts == [] then []
    else (if IsRagDocument(atts[0]) then [atts[0]] else []) + RagAttachments(atts[1..])
  }

  /** The attachments forwarded to the transport: those that are not RAG
      documents, in their original order. */
  function OtherAttachments(atts: seq<Attachment>): (r: seq<Attachment>)
    ensures |r| <= |atts|
  {
    if atts == [] then []
    else (if IsRagDocument(atts[0]) then [] else [atts[0]]) + OtherAttachments(atts[1..])
  }

  /** Both filters distribute over concatenation: each keeps the relative
      order of the attachments it selects. */
  lemma PartitionAppend(a: seq<Attachment>, b: seq<Attachment>)
    ensures RagAttachments(a + b) == RagAttachments(a) + RagAttachments(b)
    ensures OtherAttachments(a + b) == OtherAttachments(a) + OtherAttachments(b)
  {
    RagAppend(a, b);
    OtherAppend(a, b);
  }

  lemma {:induction false} RagAppend(a: seq<Attachment>, b: seq<Attachment>)
    ensures RagAttachments(a + b) == RagAttachments(a) + RagAttachments(b)
  {
    if a == [] {
      assert a + b == b;
    } else {
      assert (a + b)[0] == a[0];
      assert (a + b)[1..] == a[1..] + b;
      RagAppend(a[1..], b);
      var h := if IsRagDocument(a[0]) then [a[0]] else [];
      assert RagAttachments(a + b) == h + RagAttachments(a[1..] + b);
      assert RagAttachments(a) == h + RagAttachments(a[1..]);
    }
  }

  lemma {:induction false} OtherAppend(a: seq<Attachment>, b: seq<Attachment>)
    ensures OtherAttachments(a + b) == OtherAttachments(a) + OtherAttachments(b)
  {
    if a == [] {
      assert a + b == b;
    } else {
      assert (a + b)[0] == a[0];
      assert (a + b)[1..] == a[1..] + b;
      OtherAppend(a[1..], b);
      var h := if IsRagDocument(a[0]) then [] else [a[0]];
      assert OtherAttachments(a + b) == h + OtherAttachments(a[1..] + b);
      assert OtherAttachments(a) == h + OtherAttachments(a[1..]);
    }
  }

  /** The two lists together hold every attachment, each exactly as often as
      the input does. */
  lemma {:induction false} PartitionComplete(atts: seq<Attachment>)
    ensures multiset(RagAttachments(atts)) + multiset(OtherAttachments(atts)) == multiset(atts)
    ensures |RagAttachments(atts)| + |OtherAttachments(atts)| == |atts|
  {
    if atts != [] {
      PartitionComplete(atts[1..]);
      assert atts == [atts[0]] + atts[1..];
    }
  }

  /** The RAG list is exactly the attachments tagged "rag-document", the
      other list exactly the rest. */
  lemma {:induction false} PartitionMembership(atts: seq<Attachment>)
    ensures forall a :: a in RagAttachments(atts) <==> a in atts && IsRagDocument(a)
    ensures forall a :: a in OtherAttachments(atts) <==> a in atts && !IsRagDocument(a)
  {
    if atts != [] {
      PartitionMembership(atts[1..]);
      assert atts == [atts[0]] + atts[1..];
    }
  }

  /** The `for` loop that pushes every non-RAG attachment onto
      `otherAttachments`. */
  method CollectOtherAttachments(atts: seq<Attachment>) returns (others: seq<Attachment>)
    ensures others == OtherAttachments(atts)
  {
    others := [];
    var i := 0;
    while i < |atts|
      invariant 0 <= i <= |atts|
      invariant others == OtherAttachments(atts[..i])
    {
      assert atts[..i + 1] == atts[..i] + [atts[i]];
      OtherAppend(atts[..i], [atts[i]]);
      assert OtherAttachments([atts[i]]) == (if IsRagDocument(atts[i]) then [] else [atts[i]]) + OtherAttachments([]);
      if !IsRagDocument(atts[i]) {
        others := others + [atts[i]];
      }
      i := i + 1;
    }
    assert atts[..i] == atts;
  }

  // ---------------------------------------------------------------------------
  // Document blocks

  function DocumentHeader(name: string): string {
    "\n\n--- Document: " + name + " ---\n"
  }

  const DocumentFooter: string := "\n--- End Document ---\n\n"
  const TruncatedFooter: string := "\n--- End Document (truncated) ---\n\n"

  /** `typeof file.size === "number" && file.size > MAX_RAG_BYTES`. */
  predicate IsOversized(f: File) {
    f.size.Some? && f.size.value > MaxRagBytes
  }

  /** What one RAG document contributes: "" when its read fails, otherwise
      its header, its (possibly cut) text and the matching footer. */
  function DocumentBlock(a: Attachment): (r: string)
    ensures r == "" <==> a.file.text.None?
    ensures a.file.text.Some? && IsOversized(a.file) ==>
      |r| <= |DocumentHeader(a.file.name)| + MaxRagBytes + |TruncatedFooter|
  {
    match a.file.text
    case None => ""
    case Some(text) =>
      if IsOversized(a.file) then
        DocumentHeader(a.file.name) + text[..Min(MaxRagBytes, |text|)] + TruncatedFooter
      else
        DocumentHeader(a.file.name) + text + DocumentFooter
  }

  /** Reads a block written for a document called `name` back into its body
      and whether its footer marks it as truncated. */
  function ParseDocumentBlock(name: string, block: string): Option<(string, bool)> {
    var h := DocumentHeader(name);
    if |h| + |TruncatedFooter| <= |block| && block[..|h|] == h
       && block[|block| - |TruncatedFooter|..] == TruncatedFooter then
      Some((block[|h|..|block| - |TruncatedFooter|], true))
    else if |h| + |DocumentFooter| <= |block| && block[..|h|] == h
       && block[|block| - |DocumentFooter|..] == DocumentFooter then
      Some((block[|h|..|block| - |DocumentFooter|], false))
    else
      None
  }

  /** A failed read contributes nothing; a successful one yields a block whose
      header names the file, whose footer says "(truncated)" exactly when the
      reported size exceeds `MAX_RAG_BYTES`, and whose body is the text cut to
      its first `MAX_RAG_BYTES` characters in that case and the whole text
      otherwise. */
  lemma DocumentBlockFormat(a: Attachment)
    ensures a.file.text.None? <==> DocumentBlock(a) == ""
    ensures a.file.text.Some? ==>
      var text := a.file.text.value;
      var parsed := ParseDocumentBlock(a.file.name, DocumentBlock(a));
      && parsed.Some?
      && parsed.value.1 == IsOversized(a.file)
      && parsed.value.0 <= text
      && (IsOversized(a.file) ==> |parsed.value.0| == Min(MaxRagBytes, |text|) <= MaxRagBytes)
      && (!IsOversized(a.file) ==> parsed.value.0 == text)
  {
    if a.file.text.Some? {
      var text := a.file.text.value;
      var h := DocumentHeader(a.file.name);
      var block := DocumentBlock(a);
      if IsOversized(a.file) {
        var body := text[..Min(MaxRagBytes, |text|)];
        assert block == h + body + TruncatedFooter;
        assert block[..|h|] == h;
        assert block[|block| - |TruncatedFooter|..] == TruncatedFooter;
        assert block[|h|..|block| - |TruncatedFooter|] == body;
      } else {
        assert block == h + text + DocumentFooter;
        assert block[..|h|] == h;
        assert block[|block| - |DocumentFooter|..] == DocumentFooter;
        assert block[|h|..|block| - |DocumentFooter|] == text;
        if |h| + |TruncatedFooter| <= |block| {
          // the two footers differ in their last-but-six character
          assert block[|block| - 7] == DocumentFooter[|DocumentFooter| - 7] == 't';
          assert TruncatedFooter[|TruncatedFooter| - 7] == ')';
          assert block[|block| - |TruncatedFooter|..] != TruncatedFooter;
        }
      }
    }
  }

  // ---------------------------------------------------------------------------
  // Joining

  /** `texts.join("")`. */
  function Join(parts: seq<string>): (r: string)
    ensures r == "" <==> forall i | 0 <= i < |parts| :: parts[i] == ""
    ensures forall i | 0 <= i < |parts| :: |parts[i]| <= |r|
  {
    if parts == [] then "" else parts[0] + Join(parts[1..])
  }

  lemma {:induction false} JoinAppend(a: seq<string>, b: seq<string>)
    ensures Join(a + b) == Join(a) + Join(b)
  {
    if a == [] {
      assert a + b == b;
    } else {
      assert (a + b)[1..] == a[1..] + b;
      JoinAppend(a[1..], b);
    }
  }

  /** `ragAttachments.map(...)`: one block per document, in index order (the
      order `Promise.all` preserves). */
  function DocumentBlocks(docs: seq<Attachment>): (r: seq<string>)
    ensures |r| == |docs|
    ensures forall i | 0 <= i < |docs| :: r[i] == DocumentBlock(docs[i])
  {
    seq(|docs|, i requires 0 <= i < |docs| => DocumentBlock(docs[i]))
  }

  /** `ragContent`: the blocks of the documents, joined. */
  function RagContent(docs: seq<Attachment>): (r: string)
    ensures r == "" <==> forall i | 0 <= i < |docs| :: docs[i].file.text.None?
  {
    Join(DocumentBlocks(docs))
  }

  lemma RagContentAppend(a: seq<Attachment>, b: seq<Attachment>)
    ensures RagContent(a + b) == RagContent(a) + RagContent(b)
  {
    assert DocumentBlocks(a + b) == DocumentBlocks(a) + DocumentBlocks(b);
    JoinAppend(DocumentBlocks(a), DocumentBlocks(b));
  }

  /** Document `i`'s block sits between those of the documents before it and
      those after it. */
  lemma RagContentAt(docs: seq<Attachment>, i: nat)
    requires i < |docs|
    ensures RagContent(docs) == RagContent(docs[..i]) + DocumentBlock(docs[i]) + RagContent(docs[i + 1..])
  {
    var before, d, after := docs[..i], docs[i], docs[i + 1..];
    assert docs == before + [d] + after;
    RagContentAppend(before + [d], after);
    RagContentAppend(before, [d]);
    RagContentSingle(d);
  }

  lemma RagContentSingle(d: Attachment)
    ensures RagContent([d]) == DocumentBlock(d)
  {
    assert DocumentBlocks([d]) == [DocumentBlock(d)];
    assert Join([DocumentBlock(d)]) == DocumentBlock(d) + Join([]);
  }

  /** A document whose read fails is as if it had not been attached: the
      other documents are all still included, unchanged and in order. */
  lemma ReadFailureIsolated(docs: seq<Attachment>, i: nat)
    requires i < |docs| && docs[i].file.text.None?
    ensures RagContent(docs) == RagContent(docs[..i] + docs[i + 1..])
  {
    RagContentWithout(docs, i);
    RagContentAppend(docs[..i], docs[i + 1..]);
  }

  /** The empty block of a failed read drops out of the joined content. */
  lemma RagContentWithout(docs: seq<Attachment>, i: nat)
    requires i < |docs| && docs[i].file.text.None?
    ensures RagContent(docs) == RagContent(docs[..i]) + RagContent(docs[i + 1..])
  {
    RagContentAt(docs, i);
  }

  /** `ragContent + prompt`, the text handed to the transport. */
  function SendText(attachments: Option<seq<Attachment>>, prompt: string): (r: string)
    ensures |r| >= |prompt| && r[|r| - |prompt|..] == prompt
    ensures attachments.None? || RagAttachments(attachments.value) == [] ==> r == prompt
  {
    var ragContent := match attachments
      case None => ""
      case Some(atts) => RagContent(RagAttachments(atts));
    ragContent + prompt
  }
}
