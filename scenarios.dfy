/** Worked runs of the batch on concrete folders, services and documents. */
module Scenarios {
  import opened Wrappers
  import opened Strings
  import opened Naming
  import opened Extraction
  import opened Renamer

  function InvoicePage(): Page
  {
    Page(612.0, 792.0, "Invoice for May rent payment", _ => "")
  }

  function InvoiceEnv(): Env
  {
    Env(n => if n == "doc1.pdf" then Ok(Document([InvoicePage()])) else Err("cannot open"),
        _ => Ok("May Rent Invoice"),
        (_, _) => None)
  }

  /**
   * A folder holding `doc1.pdf` whose text is an invoice, a service that
   * answers "May Rent Invoice", no prefix or suffix, no preview: the file
   * becomes `May_Rent_Invoice.pdf` and the log reports it.
   */
  lemma InvoiceRenamed(names: set<string>, listing: seq<string>, job: Job, env: Env)
    requires names == {"doc1.pdf"} && listing == ["doc1.pdf"]
    requires job == Job("", "", false, false, [0, 0, 0, 0]) && env == InvoiceEnv()
    ensures Run(names, listing, job, env)
         == Effect({"May_Rent_Invoice.pdf"}, [Reading("doc1.pdf"), Renamed("May_Rent_Invoice.pdf")])
  {
    var entry := listing[0];
    var text, target := InvoiceNamed(entry, job, env);
    AbsentTargetRenamed(names, entry, job, env, text);
    RunOfOne(names, listing, job, env);
    assert names - {entry} + {target} == {target};
  }

  /** `doc1.pdf` passes the filter and is named `May_Rent_Invoice.pdf` from its text. */
  lemma InvoiceNamed(entry: string, job: Job, env: Env) returns (text: string, target: string)
    requires entry == "doc1.pdf"
    requires job == Job("", "", false, false, [0, 0, 0, 0]) && env == InvoiceEnv()
    ensures IsPdfName(entry) && !job.previewOnly
    ensures NamingInput(entry, job, env) == Some(text)
    ensures GenerateFilename(text, env.complete).Success?
    ensures target == FinalName(job.prefix, GenerateFilename(text, env.complete).name, job.suffix)
    ensures target == "May_Rent_Invoice.pdf"
    ensures env.renameFault(entry, target).None?
  {
    InvoiceIsPdf(entry);
    var doc := env.open(entry).value;
    text := InvoiceText(doc);
    var name := InvoiceName(text, env.complete);
    target := InvoiceTarget(job, name);
  }

  /** A listing of one entry is that entry's step. */
  lemma RunOfOne(names: set<string>, listing: seq<string>, job: Job, env: Env)
    requires |listing| == 1
    ensures Run(names, listing, job, env) == ProcessEntry(names, listing[0], job, env)
  {
    assert listing[..0] == [];
  }

  /** The one-page invoice is read whole and handed on unchanged. */
  lemma InvoiceText(doc: Document) returns (text: string)
    requires doc == Document([InvoicePage()])
    ensures text == "Invoice for May rent payment"
    ensures WholeDocumentText(doc) == text
  {
    text := doc.pages[0].text;
    var pages := doc.pages;
    assert pages[..1] == pages;
    assert pages[..0] == [];
    assert Concat(pages[..1]) == text;
    PagesReadUnique(pages, 1);
    StripOfTrimmed(text);
  }

  /** The reply "May Rent Invoice" becomes the name "May_Rent_Invoice". */
  lemma InvoiceName(text: string, complete: Completer) returns (name: string)
    requires complete == InvoiceEnv().complete
    ensures name == "May_Rent_Invoice"
    ensures GenerateFilename(text, complete) == Success(name)
  {
    var reply := complete(Prompt(text)).value;
    assert reply == "May Rent Invoice";
    StripOfTrimmed(reply);
    name := SanitizeReply(reply);
  }

  /** The two spaces of the reply become underscores; every other character stays. */
  lemma SanitizeReply(reply: string) returns (r: string)
    requires reply == "May Rent Invoice"
    ensures r == Sanitize(reply) == "May_Rent_Invoice"
  {
    r := Sanitize(reply);
    assert r[0] == 'M' && r[1] == 'a' && r[2] == 'y' && r[3] == '_';
    assert r[4] == 'R' && r[5] == 'e' && r[6] == 'n' && r[7] == 't' && r[8] == '_';
    assert r[9] == 'I' && r[10] == 'n' && r[11] == 'v' && r[12] == 'o';
    assert r[13] == 'i' && r[14] == 'c' && r[15] == 'e';
  }

  lemma InvoiceTarget(job: Job, name: string) returns (target: string)
    requires job.prefix == "" && job.suffix == "" && name == "May_Rent_Invoice"
    ensures target == FinalName(job.prefix, name, job.suffix) == "May_Rent_Invoice.pdf"
  {
    target := FinalName(job.prefix, name, job.suffix);
    assert target == name + ".pdf";
  }

  lemma InvoiceIsPdf(entry: string)
    requires entry == "doc1.pdf"
    ensures IsPdfName(entry)
  {
    assert |entry| == 8;
    assert entry[4] == '.' && entry[5] == 'p' && entry[6] == 'd' && entry[7] == 'f';
    IsPdfNameCaseInsensitive(entry);
  }
}
