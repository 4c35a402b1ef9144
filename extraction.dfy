/**
 * Text extraction through PyMuPDF (`fitz`): the text inside a clipping
 * rectangle on the first page (`extract_text_by_area`), and the
 * whole-document branch of `rename_pdfs`, which gathers page texts until
 * `MAX_TEXT_LENGTH` characters have been read.
 */
module Extraction {
  import opened Wrappers
  import opened Strings

  /** `MAX_TEXT_LENGTH`: the cap on the text handed to the naming service. */
  const MaxTextLength: nat := 1000

  /** A rectangle as the list `[x0, y0, x1, y1]`. */
  type Rect = seq<int>

  /**
   * What the library reveals about one page: its size in page units, its
   * plain text (`page.get_text()`), and the text clipped to a rectangle
   * (`page.get_text("text", clip=...)`).
   */
  datatype Page = Page(width: real, height: real, text: string, clip: Rect -> string)

  /** An opened document: its pages in order. */
  datatype Document = Document(pages: seq<Page>)

  /** The message of the `IndexError` raised by `doc[0]` on a document without pages. */
  const NoFirstPage: string := "page 0 not in document"

  /**
   * `extract_text_by_area` once the document is open: `doc[0]` raises on a
   * document without pages; otherwise the clipped text of the first page,
   * stripped. Only the first page is ever consulted.
   */
  function ExtractTextByArea(doc: Document, rect: Rect): (r: Result<string>)
    ensures r.Ok? <==> |doc.pages| > 0
    ensures r.Err? ==> r.msg == NoFirstPage
    ensures r.Ok? ==> r.value == Strip(doc.pages[0].clip(rect))
    ensures r.Ok? ==> r.value == [] || (!IsSpace(r.value[0]) && !IsSpace(r.value[|r.value| - 1]))
  {
    if |doc.pages| == 0 then Err(NoFirstPage) else Ok(Strip(doc.pages[0].clip(rect)))
  }

  /** Area extraction depends on nothing but the first page. */
  lemma AreaTextOnlyFirstPage(d1: Document, d2: Document, rect: Rect)
    requires |d1.pages| > 0 && |d2.pages| > 0
    requires d1.pages[0].clip(rect) == d2.pages[0].clip(rect)
    ensures ExtractTextByArea(d1, rect) == ExtractTextByArea(d2, rect)
  {
  }

  /** The texts of `pages` joined in page order. */
  function Concat(pages: seq<Page>): string
  {
    if pages == [] then "" else Concat(pages[..|pages| - 1]) + pages[|pages| - 1].text
  }

  lemma ConcatStep(pages: seq<Page>, k: nat)
    requires k < |pages|
    ensures Concat(pages[..k + 1]) == Concat(pages[..k]) + pages[k].text
  {
    assert pages[..k + 1][..k] == pages[..k];
  }

  /** The text of the first `k` pages is a prefix of the text of all pages: pages are read in order. */
  lemma {:induction false} ConcatPrefix(pages: seq<Page>, k: nat)
    requires k <= |pages|
    ensures |Concat(pages[..k])| <= |Concat(pages)|
    ensures Concat(pages[..k]) == Concat(pages)[..|Concat(pages[..k])|]
  {
    if k < |pages| {
      var init := pages[..|pages| - 1];
      assert init[..k] == pages[..k];
      ConcatPrefix(init, k);
      assert pages[..|pages|] == pages;
    } else {
      assert pages[..k] == pages;
    }
  }

  /**
   * Where the page loop stops when it has already read `i` pages without
   * reaching the cap: just after the first later page that brings the total
   * to at least `MaxTextLength`, or after the last page.
   */
  function PagesReadFrom(pages: seq<Page>, i: nat): (k: nat)
    requires i <= |pages|
    ensures i <= k <= |pages|
    ensures i < |pages| ==> i < k
    ensures k == |pages| || |Concat(pages[..k])| >= MaxTextLength
    ensures forall j :: i < j < k ==> |Concat(pages[..j])| < MaxTextLength
    decreases |pages| - i
  {
    if i == |pages| then i
    else if |Concat(pages[..i + 1])| >= MaxTextLength then i + 1
    else PagesReadFrom(pages, i + 1)
  }

  /**
   * The number of pages the whole-document loop reads: at least one page
   * when there is one, it stops at the first page at which the accumulated
   * text reaches the cap, and it reads every page when that never happens.
   */
  function PagesRead(pages: seq<Page>): (k: nat)
    ensures k <= |pages|
    ensures |pages| > 0 ==> k > 0
    ensures k == |pages| || |Concat(pages[..k])| >= MaxTextLength
    ensures forall j :: 0 < j < k ==> |Concat(pages[..j])| < MaxTextLength
  {
    PagesReadFrom(pages, 0)
  }

  /** The conditions on `PagesRead` determine it: it is the first stopping point. */
  lemma PagesReadUnique(pages: seq<Page>, k: nat)
    requires k <= |pages|
    requires |pages| > 0 ==> k > 0
    requires k == |pages| || |Concat(pages[..k])| >= MaxTextLength
    requires forall j :: 0 < j < k ==> |Concat(pages[..j])| < MaxTextLength
    ensures k == PagesRead(pages)
  {
  }

  /**
   * The loop `for page in doc: full_text += page.get_text(); if
   * len(full_text) >= MAX_TEXT_LENGTH: break`. It returns the text of the
   * pages it read, in order.
   */
  method GatherText(pages: seq<Page>) returns (fullText: string)
    ensures fullText == Concat(pages[..PagesRead(pages)])
  {
    fullText := "";
    for i := 0 to |pages|
      invariant fullText == Concat(pages[..i])
      invariant PagesReadFrom(pages, i) == PagesRead(pages)
    {
      ConcatStep(pages, i);
      fullText := fullText + pages[i].text;
      if |fullText| >= MaxTextLength {
        break;
      }
    }
  }

  /**
   * The text handed to the naming service in whole-document mode:
   * `full_text.strip()[:MAX_TEXT_LENGTH]`: the stripped text of the pages
   * read when it fits under the cap, and otherwise its first
   * `MaxTextLength` characters.
   */
  function WholeDocumentText(doc: Document): (r: string)
    ensures |r| <= MaxTextLength
    ensures |r| <= |Strip(Concat(doc.pages[..PagesRead(doc.pages)]))|
    ensures r == Strip(Concat(doc.pages[..PagesRead(doc.pages)]))[..|r|]
    ensures |Strip(Concat(doc.pages[..PagesRead(doc.pages)]))| <= MaxTextLength ==>
      r == Strip(Concat(doc.pages[..PagesRead(doc.pages)]))
    ensures |Strip(Concat(doc.pages[..PagesRead(doc.pages)]))| > MaxTextLength ==> |r| == MaxTextLength
  {
    Take(Strip(Concat(doc.pages[..PagesRead(doc.pages)])), MaxTextLength)
  }

  /** A document whose whole text is under the cap is read to its last page. */
  lemma ShortDocumentReadWhole(doc: Document)
    requires |Concat(doc.pages)| < MaxTextLength
    ensures PagesRead(doc.pages) == |doc.pages|
    ensures WholeDocumentText(doc) == Strip(Concat(doc.pages))
  {
    var k := PagesRead(doc.pages);
    ConcatPrefix(doc.pages, k);
    assert doc.pages[..|doc.pages|] == doc.pages;
  }

  /**
   * Stopping early loses nothing whenever the stripped text of the pages read
   * still holds `MaxTextLength` characters: the result is then what reading
   * every page would have given.
   */
  lemma EarlyStopKeepsCap(doc: Document)
    requires |Strip(Concat(doc.pages[..PagesRead(doc.pages)]))| >= MaxTextLength
    ensures WholeDocumentText(doc) == Take(Strip(Concat(doc.pages)), MaxTextLength)
  {
    var g := Concat(doc.pages[..PagesRead(doc.pages)]);
    var a := Concat(doc.pages);
    ConcatPrefix(doc.pages, PagesRead(doc.pages));
    StripOfExtension(g, a);
  }
}
