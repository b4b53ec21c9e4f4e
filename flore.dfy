/**
 * The priority-flora form publisher (odk2gn/flore_prioritaire/odk_flore_prioritaire.py).
 *
 * Reference data (nomenclatures, taxa, observers, organizations) is exported
 * as CSV tables, attached to a draft of the ODK Central form and the draft is
 * published. Submissions are fetched back with a filter that leaves out
 * closed review states, and review states are patched.
 *
 * ODK Central is a class holding the requests it received and an oracle that
 * gives the status code of the n-th request; the application log is a class
 * holding the entries written to it.
 */
module FlorePrioritaire {

  // ---------------------------------------------------------------------------
  // CSV headers
  // ---------------------------------------------------------------------------

  /** Columns joined with commas, as a header line is written. */
  function Join(cols: seq<string>): string
  {
    if |cols| == 0 then ""
    else if |cols| == 1 then cols[0]
    else cols[0] + "," + Join(cols[1..])
  }

  /** The columns of a header line: the text between commas. */
  function Split(line: string): (cols: seq<string>)
    ensures |cols| >= 1
  {
    if line == [] then [""]
    else
      var rest := Split(line[1..]);
      if line[0] == ',' then [""] + rest
      else [[line[0]] + rest[0]] + rest[1..]
  }

  /** A comma-free prefix is the first column of what it starts. */
  lemma {:induction false} SplitCommaFree(a: string, rest: string)
    requires ',' !in a
    ensures Split(a + rest) == [a + Split(rest)[0]] + Split(rest)[1..]
    decreases |a|
  {
    if a != [] {
      assert (a + rest)[1..] == a[1..] + rest;
      assert (a + rest)[0] == a[0];
      SplitCommaFree(a[1..], rest);
      assert [a[0]] + (a[1..] + Split(rest)[0]) == a + Split(rest)[0];
    } else {
      assert a + rest == rest;
      assert a + Split(rest)[0] == Split(rest)[0];
      assert Split(rest) == [Split(rest)[0]] + Split(rest)[1..];
    }
  }

  /** A leading comma closes an empty first column. */
  lemma SplitAfterComma(t: string)
    ensures Split("," + t) == [""] + Split(t)
  {
    assert ("," + t)[0] == ',' && ("," + t)[1..] == t;
  }

  /** Reading back a header of comma-free column names gives the columns. */
  lemma {:induction false} SplitJoin(cols: seq<string>)
    requires |cols| >= 1
    requires forall c :: c in cols ==> ',' !in c
    ensures Split(Join(cols)) == cols
    decreases |cols|
  {
    if |cols| == 1 {
      SplitCommaFree(cols[0], "");
      assert Split(Join(cols)) == [cols[0] + ""] by {
        assert Join(cols) == cols[0] + "";
      }
      assert cols[0] + "" == cols[0];
    } else {
      var head, rest := cols[0], cols[1..];
      assert ',' !in head by {
        assert head in cols;
      }
      assert Split(Join(rest)) == rest by {
        assert forall c :: c in rest ==> c in cols;
        SplitJoin(rest);
      }
      var tail := "," + Join(rest);
      assert Split(tail) == [""] + rest by {
        SplitAfterComma(Join(rest));
      }
      assert Join(cols) == head + tail;
      SplitCommaFree(head, tail);
      assert Split(Join(cols)) == [head + ""] + rest;
      assert head + "" == head;
    }
  }

  const TaxonColumns: seq<string> := ["cd_nom", "nom_complet", "nom_vern"]
  const ObserverColumns: seq<string> := ["id_role", "nom_complet"]
  const NomenclatureColumns: seq<string> := ["mnemonique", "id_nomenclature", "cd_nomenclature", "label_default"]

  /** The header lines: the column names joined with commas. */
  const TaxonsHeader: string := Join(TaxonColumns)
  const ObserversHeader: string := Join(ObserverColumns)
  const NomenclaturesHeader: string := Join(NomenclatureColumns)

  /** Each header line names exactly the columns of its export. */
  lemma HeaderColumns()
    ensures Split(TaxonsHeader) == TaxonColumns
    ensures Split(ObserversHeader) == ObserverColumns
    ensures Split(NomenclaturesHeader) == NomenclatureColumns
  {
    TaxonsHeaderColumns();
    ObserversHeaderColumns();
    NomenclaturesHeaderColumns();
  }

  lemma TaxonsHeaderColumns()
    ensures Split(TaxonsHeader) == TaxonColumns
  {
    SplitJoin(TaxonColumns);
  }

  lemma ObserversHeaderColumns()
    ensures Split(ObserversHeader) == ObserverColumns
  {
    SplitJoin(ObserverColumns);
  }

  lemma NomenclaturesHeaderColumns()
    ensures Split(NomenclaturesHeader) == NomenclatureColumns
  {
    SplitJoin(NomenclatureColumns);
  }

  // ---------------------------------------------------------------------------
  // Reference data exports
  // ---------------------------------------------------------------------------

  /** A header line and the rows written under it, one cell per column. */
  datatype Table = Table(header: string, rows: seq<seq<string>>)

  /** Every row has as many cells as the header has columns. */
  predicate WellFormed(t: Table)
  {
    forall row :: row in t.rows ==> |row| == |Split(t.header)|
  }

  /** A taxon of the list (cd_nom, nom_complet, nom_vern), cells as written. */
  datatype TaxonRow = TaxonRow(cdNom: string, nomComplet: string, nomVern: string)

  /** An observer of the menu (id_role, nom_complet). */
  datatype ObserverRow = ObserverRow(idRole: string, nomComplet: string)

  /** A nomenclature joined with its type's mnemonic. */
  datatype NomenclatureRow = NomenclatureRow(
    mnemonique: string, idNomenclature: string, cdNomenclature: string, labelDefault: string)

  /** The nomenclature types exported to the form. */
  const NomenclatureMnemonics: seq<string> := [
    "TYPE_PERTURBATION", "INCLINE_TYPE", "PHYSIOGNOMY_TYPE", "HABITAT_STATUS",
    "THREAT_LEVEL", "PHENOLOGY_TYPE", "FREQUENCY_METHOD", "COUNTING_TYPE"]

  /** The nomenclatures whose type is whitelisted, in query order. */
  function Whitelisted(rows: seq<NomenclatureRow>): (kept: seq<NomenclatureRow>)
    ensures |kept| <= |rows|
    ensures forall r :: r in kept <==> r in rows && r.mnemonique in NomenclatureMnemonics
  {
    if rows == [] then []
    else
      var last := rows[|rows| - 1];
      assert rows == rows[..|rows| - 1] + [last];
      Whitelisted(rows[..|rows| - 1]) + (if last.mnemonique in NomenclatureMnemonics then [last] else [])
  }

  /** Filtering keeps query order: the kept rows of a split query are those of each part. */
  lemma {:induction false} WhitelistedAppend(a: seq<NomenclatureRow>, b: seq<NomenclatureRow>)
    ensures Whitelisted(a + b) == Whitelisted(a) + Whitelisted(b)
    decreases |b|
  {
    if b == [] {
      assert a + b == a;
    } else {
      assert (a + b)[..|a + b| - 1] == a + b[..|b| - 1];
      WhitelistedAppend(a, b[..|b| - 1]);
    }
  }

  /** The whitelist is the eight codes and nothing else. */
  lemma WhitelistCodes(mnemonique: string)
    ensures mnemonique in NomenclatureMnemonics <==>
      mnemonique in {"TYPE_PERTURBATION", "INCLINE_TYPE", "PHYSIOGNOMY_TYPE", "HABITAT_STATUS",
                     "THREAT_LEVEL", "PHENOLOGY_TYPE", "FREQUENCY_METHOD", "COUNTING_TYPE"}
    ensures |NomenclatureMnemonics| == 8
  {
  }

  function TaxonCells(r: TaxonRow): seq<string> { [r.cdNom, r.nomComplet, r.nomVern] }
  function ObserverCells(r: ObserverRow): seq<string> { [r.idRole, r.nomComplet] }
  function NomenclatureCells(r: NomenclatureRow): seq<string>
  {
    [r.mnemonique, r.idNomenclature, r.cdNomenclature, r.labelDefault]
  }

  /** get_taxons: the taxa of the list under the taxon header. */
  function GetTaxons(taxa: seq<TaxonRow>): Table
  {
    Table(TaxonsHeader, seq(|taxa|, k requires 0 <= k < |taxa| => TaxonCells(taxa[k])))
  }

  /** get_observers: the observers of the menu under the observer header. */
  function GetObservers(observers: seq<ObserverRow>): Table
  {
    Table(ObserversHeader, seq(|observers|, k requires 0 <= k < |observers| => ObserverCells(observers[k])))
  }

  /** get_nomenclatures: the nomenclatures of a whitelisted type under the nomenclature header. */
  function GetNomenclatures(nomenclatures: seq<NomenclatureRow>): Table
  {
    var kept := Whitelisted(nomenclatures);
    Table(NomenclaturesHeader, seq(|kept|, k requires 0 <= k < |kept| => NomenclatureCells(kept[k])))
  }

  /** The taxon export: the three taxon columns, one row per taxon in list order, each the taxon's cells. */
  lemma TaxonsExport(taxa: seq<TaxonRow>)
    ensures var t := GetTaxons(taxa);
            && Split(t.header) == TaxonColumns
            && WellFormed(t)
            && |t.rows| == |taxa|
            && forall k :: 0 <= k < |taxa| ==>
                 t.rows[k] == [taxa[k].cdNom, taxa[k].nomComplet, taxa[k].nomVern]
  {
    HeaderColumns();
    var t := GetTaxons(taxa);
    forall row | row in t.rows ensures |row| == |Split(t.header)| {
      var k :| 0 <= k < |t.rows| && t.rows[k] == row;
    }
  }

  /** The observer export: the two observer columns, one row per observer in menu order. */
  lemma ObserversExport(observers: seq<ObserverRow>)
    ensures var t := GetObservers(observers);
            && Split(t.header) == ObserverColumns
            && WellFormed(t)
            && |t.rows| == |observers|
            && forall k :: 0 <= k < |observers| ==> t.rows[k] == [observers[k].idRole, observers[k].nomComplet]
  {
    HeaderColumns();
    var t := GetObservers(observers);
    forall row | row in t.rows ensures |row| == |Split(t.header)| {
      var k :| 0 <= k < |t.rows| && t.rows[k] == row;
    }
  }

  /**
   * The nomenclature export: the four nomenclature columns; every exported
   * row is a queried nomenclature of a whitelisted type, and every queried
   * nomenclature of a whitelisted type is exported.
   */
  lemma NomenclaturesExport(nomenclatures: seq<NomenclatureRow>)
    ensures var t := GetNomenclatures(nomenclatures);
            && Split(t.header) == NomenclatureColumns
            && WellFormed(t)
            && |t.rows| == |Whitelisted(nomenclatures)|
            && (forall k :: 0 <= k < |t.rows| ==> t.rows[k] == NomenclatureCells(Whitelisted(nomenclatures)[k]))
            && (forall row :: row in t.rows ==>
                  exists r :: r in nomenclatures && r.mnemonique in NomenclatureMnemonics && row == NomenclatureCells(r))
            && (forall r :: r in nomenclatures && r.mnemonique in NomenclatureMnemonics ==>
                  NomenclatureCells(r) in t.rows)
  {
    HeaderColumns();
    var t := GetNomenclatures(nomenclatures);
    var kept := Whitelisted(nomenclatures);
    forall row | row in t.rows
      ensures |row| == |Split(t.header)|
      ensures exists r :: r in nomenclatures && r.mnemonique in NomenclatureMnemonics && row == NomenclatureCells(r)
    {
      var k :| 0 <= k < |t.rows| && t.rows[k] == row;
      assert kept[k] in kept;
    }
    forall r | r in nomenclatures && r.mnemonique in NomenclatureMnemonics
      ensures NomenclatureCells(r) in t.rows
    {
      var k := IndexOf(kept, r);
      assert t.rows[k] == NomenclatureCells(r);
    }
  }

  function IndexOf<T(==)>(s: seq<T>, x: T): (k: nat)
    requires x in s
    ensures k < |s| && s[k] == x
  {
    if s[0] == x then 0 else 1 + IndexOf(s[1..], x)
  }

  // ---------------------------------------------------------------------------
  // Files attached to the form (write_files)
  // ---------------------------------------------------------------------------

  /** A CSV file: its name and the table written to it. */
  datatype CsvFile = CsvFile(fileName: string, table: Table)

  /** The attachment names, in the order the files are written and uploaded. */
  const AttachmentNames: seq<string> := [NomenclaturesFile, TaxonsFile, ObserversFile, OrganizationsFile]

  const NomenclaturesFile: string := "pf_nomenclatures.csv"
  const TaxonsFile: string := "pf_taxons.csv"
  const ObserversFile: string := "pf_observers.csv"
  const OrganizationsFile: string := "pf_organizations.csv"

  /** The files of a publish cycle, each holding its export. */
  function Attachments(nomenclatures: seq<NomenclatureRow>, taxa: seq<TaxonRow>, observers: seq<ObserverRow>,
                       organizations: Table): seq<CsvFile>
  {
    [CsvFile(NomenclaturesFile, GetNomenclatures(nomenclatures)),
     CsvFile(TaxonsFile, GetTaxons(taxa)),
     CsvFile(ObserversFile, GetObservers(observers)),
     CsvFile(OrganizationsFile, organizations)]
  }

  /**
   * write_files: the four exports, nomenclatures first, then taxa, observers
   * and organizations. The organizations export is a placeholder whose
   * content is given.
   */
  method WriteFiles(nomenclatures: seq<NomenclatureRow>, taxa: seq<TaxonRow>, observers: seq<ObserverRow>,
                    organizations: Table)
    returns (files: seq<CsvFile>)
    ensures files == Attachments(nomenclatures, taxa, observers, organizations)
    ensures |files| == |AttachmentNames|
    ensures forall k :: 0 <= k < |files| ==> files[k].fileName == AttachmentNames[k]
    ensures files[0].table == GetNomenclatures(nomenclatures)
    ensures files[1].table == GetTaxons(taxa)
    ensures files[2].table == GetObservers(observers)
    ensures files[3].table == organizations
  {
    files := [];
    files := files + [CsvFile(NomenclaturesFile, GetNomenclatures(nomenclatures))];
    files := files + [CsvFile(TaxonsFile, GetTaxons(taxa))];
    files := files + [CsvFile(ObserversFile, GetObservers(observers))];
    files := files + [CsvFile(OrganizationsFile, organizations)];
  }

  // ---------------------------------------------------------------------------
  // Submissions (get_submissions)
  // ---------------------------------------------------------------------------

  /** A submission's review state: none yet (received), or a named state. */
  datatype ReviewState = Unreviewed | Reviewed(name: string)

  /** One submission on the server, with its nested fields left abstract. */
  datatype Submission = Submission(instanceId: string, reviewState: ReviewState)

  /** The review states considered closed. */
  const ExcludedReviewStates: seq<string> := ["approved", "hasIssues", "rejected"]

  /** The filter sent with the table request: every closed state excluded by a "ne" clause. */
  const SubmissionsFilter: string := Exclusion(ExcludedReviewStates)

  const ClausePrefix: string := "__system/reviewState ne '"
  const Conjunction: string := " and "

  /** The OData clause that keeps review states different from `state`. */
  function Clause(state: string): string
  {
    ClausePrefix + state + "'"
  }

  /** The OData filter that keeps review states different from each of `states`. */
  function Exclusion(states: seq<string>): string
  {
    if states == [] then ""
    else if |states| == 1 then Clause(states[0])
    else Clause(states[0]) + Conjunction + Exclusion(states[1..])
  }

  /** The text of `s` before its first quote. */
  function UpToQuote(s: string): (t: string)
    ensures t <= s && '\'' !in t
    ensures |t| < |s| ==> s[|t|] == '\''
  {
    if s == [] || s[0] == '\'' then [] else [s[0]] + UpToQuote(s[1..])
  }

  /**
   * How the server reads a filter of "ne" clauses joined by "and": the
   * excluded states, in order. Reading stops at the first text that is not a
   * clause.
   */
  function ExcludedBy(filter: string): seq<string>
    decreases |filter|
  {
    if |filter| < |ClausePrefix| || filter[..|ClausePrefix|] != ClausePrefix then []
    else
      var body := filter[|ClausePrefix|..];
      var state := UpToQuote(body);
      var rest := body[|state|..];
      if rest == [] then []
      else if |rest| > |Conjunction| && rest[1..|Conjunction| + 1] == Conjunction then
        [state] + ExcludedBy(rest[|Conjunction| + 1..])
      else [state]
  }

  /** A quote-free text followed by a quote reads as that text. */
  lemma {:induction false} UpToQuoteOf(a: string, rest: string)
    requires '\'' !in a
    ensures UpToQuote(a + "'" + rest) == a
    decreases |a|
  {
    if a == [] {
      assert (a + "'" + rest)[0] == '\'';
    } else {
      assert (a + "'" + rest)[0] == a[0];
      assert (a + "'" + rest)[1..] == a[1..] + "'" + rest;
      UpToQuoteOf(a[1..], rest);
      assert [a[0]] + a[1..] == a;
    }
  }

  /** The clause of one state, followed by `tail`, reads as that state then what `tail` holds. */
  lemma ClauseRead(state: string, tail: string)
    requires '\'' !in state
    ensures var filter := Clause(state) + tail;
            && |filter| >= |ClausePrefix|
            && filter[..|ClausePrefix|] == ClausePrefix
            && UpToQuote(filter[|ClausePrefix|..]) == state
            && filter[|ClausePrefix|..][|state|..] == "'" + tail
  {
    var filter := Clause(state) + tail;
    assert filter == ClausePrefix + (state + "'" + tail);
    assert filter[|ClausePrefix|..] == state + "'" + tail;
    UpToQuoteOf(state, tail);
  }

  /** A lone clause reads as its state. */
  lemma ReadLastClause(state: string)
    requires '\'' !in state
    ensures ExcludedBy(Clause(state)) == [state]
  {
    ClauseRead(state, "");
    assert Clause(state) + "" == Clause(state);
  }

  /** A clause joined by "and" to more text reads as its state, then what the text reads as. */
  lemma ReadClause(state: string, tail: string)
    requires '\'' !in state
    ensures ExcludedBy(Clause(state) + Conjunction + tail) == [state] + ExcludedBy(tail)
  {
    var filter := Clause(state) + Conjunction + tail;
    ClauseRead(state, Conjunction + tail);
    assert filter == Clause(state) + (Conjunction + tail);
    var rest := "'" + (Conjunction + tail);
    assert rest[1..|Conjunction| + 1] == Conjunction;
    assert rest[|Conjunction| + 1..] == tail;
  }

  /** Reading back a filter built from quote-free states gives the states. */
  lemma {:induction false} ExcludedByExclusion(states: seq<string>)
    requires forall s :: s in states ==> '\'' !in s
    ensures ExcludedBy(Exclusion(states)) == states
    decreases |states|
  {
    if |states| == 1 {
      ReadLastClause(states[0]);
    } else if |states| > 1 {
      assert states[0] in states;
      ReadClause(states[0], Exclusion(states[1..]));
      assert forall s :: s in states[1..] ==> s in states;
      ExcludedByExclusion(states[1..]);
    }
  }

  /** The filter get_submissions sends reads as exactly the closed states. */
  lemma SubmissionsFilterExcludes()
    ensures ExcludedBy(SubmissionsFilter) == ExcludedReviewStates
  {
    ExcludedByExclusion(ExcludedReviewStates);
  }

  /** What a conjunction of "ne" clauses lets through; an absent state differs from every value. */
  predicate Admits(states: seq<string>, state: ReviewState)
  {
    match state
    case Unreviewed => true
    case Reviewed(name) => forall k :: 0 <= k < |states| ==> states[k] != name
  }

  /** Exactly approved, hasIssues and rejected are filtered out. */
  lemma ClosedStates(state: ReviewState)
    ensures !Admits(ExcludedReviewStates, state) <==>
              state.Reviewed? && state.name in {"approved", "hasIssues", "rejected"}
  {
    if state.Reviewed? && state.name in {"approved", "hasIssues", "rejected"} {
      assert state.name == ExcludedReviewStates[0] || state.name == ExcludedReviewStates[1]
          || state.name == ExcludedReviewStates[2];
    }
  }

  /** The submissions the server returns under a filter excluding `excluded`, in table order. */
  function OpenSubmissions(table: seq<Submission>, excluded: seq<string>): (open: seq<Submission>)
    ensures |open| <= |table|
    ensures forall s :: s in open <==> s in table && Admits(excluded, s.reviewState)
  {
    if table == [] then []
    else
      var last := table[|table| - 1];
      assert table == table[..|table| - 1] + [last];
      OpenSubmissions(table[..|table| - 1], excluded) + (if Admits(excluded, last.reviewState) then [last] else [])
  }

  /** Filtering keeps table order: the open submissions of a split table are those of each part. */
  lemma {:induction false} OpenSubmissionsAppend(a: seq<Submission>, b: seq<Submission>, excluded: seq<string>)
    ensures OpenSubmissions(a + b, excluded) == OpenSubmissions(a, excluded) + OpenSubmissions(b, excluded)
    decreases |b|
  {
    if b == [] {
      assert a + b == a;
    } else {
      assert (a + b)[..|a + b| - 1] == a + b[..|b| - 1];
      OpenSubmissionsAppend(a, b[..|b| - 1], excluded);
    }
  }

  // ---------------------------------------------------------------------------
  // ODK Central and the log
  // ---------------------------------------------------------------------------

  /** The requests this module sends to ODK Central. */
  datatype Request =
    | DraftRequest(projectId: int, formId: string)
    | AttachmentRequest(projectId: int, formId: string, fileName: string, content: Table)
    | PublishRequest(projectId: int, formId: string)
    | TableRequest(projectId: int, formId: string, filter: string)
    | ReviewRequest(projectId: int, formId: string, submissionId: string, reviewState: string)

  /** The ODK Central server as seen through the client. */
  class Central {
    /** The status code answered to the n-th request. */
    const respond: (nat, Request) -> int
    /** The submissions a form holds, before any filter is applied. */
    const submissions: (int, string) -> seq<Submission>
    /** Every request received, in order. */
    var requests: seq<Request>

    constructor (respond: (nat, Request) -> int, submissions: (int, string) -> seq<Submission>)
      ensures this.respond == respond && this.submissions == submissions && requests == []
    {
      this.respond := respond;
      this.submissions := submissions;
      requests := [];
    }

    /** Sends a request and returns the status code of the response. */
    method Send(r: Request) returns (status: int)
      modifies this
      ensures requests == old(requests) + [r]
      ensures status == respond(|old(requests)|, r)
    {
      status := respond(|requests|, r);
      requests := requests + [r];
    }
  }

  /** What is written to the application log. */
  datatype Message =
    | FileNotInForm(fileName: string)
    | FileUploaded(fileName: string)
    | ReviewStateNotUpdated

  datatype LogEntry = Info(message: Message) | Warning(message: Message) | Error(message: Message)

  class Logger {
    var entries: seq<LogEntry>

    constructor ()
      ensures entries == []
    {
      entries := [];
    }

    method Log(e: LogEntry)
      modifies this
      ensures entries == old(entries) + [e]
    {
      entries := entries + [e];
    }
  }

  // ---------------------------------------------------------------------------
  // Status handling
  // ---------------------------------------------------------------------------

  /** Whether a step that asserts a 200 response went through or raised an AssertionError. */
  datatype Outcome = Done | AssertionFailed

  /** `assert status_code == 200`. */
  function Asserted200(status: int): (o: Outcome)
    ensures o == Done <==> status == 200
  {
    if status == 200 then Done else AssertionFailed
  }

  /** How upload_file reads the status of an attachment upload. */
  datatype UploadOutcome = NotInFormDefinition | Uploaded | Ignored(status: int)

  function ClassifyUpload(status: int): (o: UploadOutcome)
    ensures o == NotInFormDefinition <==> status == 404
    ensures o == Uploaded <==> status == 200
    ensures o.Ignored? <==> status != 404 && status != 200
  {
    if status == 404 then NotInFormDefinition
    else if status == 200 then Uploaded
    else Ignored(status)
  }

  /** What upload_file logs for one outcome. */
  function UploadLog(fileName: string, o: UploadOutcome): seq<LogEntry>
  {
    match o
    case NotInFormDefinition => [Warning(FileNotInForm(fileName))]
    case Uploaded => [Info(FileUploaded(fileName))]
    case Ignored(_) => []
  }

  /** A 404 is a warning, a 200 an info line, anything else leaves no trace; never an error. */
  lemma UploadLogByStatus(fileName: string, status: int)
    ensures var log := UploadLog(fileName, ClassifyUpload(status));
            && (status == 404 <==> log == [Warning(FileNotInForm(fileName))])
            && (status == 200 <==> log == [Info(FileUploaded(fileName))])
            && (status != 404 && status != 200 <==> log == [])
            && forall e :: e in log ==> !e.Error?
  {
  }

  /** What update_review_state logs for a response status. */
  function ReviewLog(status: int): (log: seq<LogEntry>)
    ensures log == [] <==> status == 200
    ensures |log| <= 1
    ensures forall e :: e in log ==> e == Error(ReviewStateNotUpdated)
  {
    if status == 200 then [] else [Error(ReviewStateNotUpdated)]
  }

  /** The request that attaches one file, carrying its table. */
  function Upload(projectId: int, formId: string, file: CsvFile): Request
  {
    AttachmentRequest(projectId, formId, file.fileName, file.table)
  }

  /** The attachment uploads for `files`, in order. */
  function Uploads(projectId: int, formId: string, files: seq<CsvFile>): seq<Request>
  {
    seq(|files|, k requires 0 <= k < |files| => Upload(projectId, formId, files[k]))
  }

  /** The log of uploading `files` when the first upload is the request numbered `first`. */
  function UploadsLog(respond: (nat, Request) -> int, first: nat, projectId: int, formId: string,
                      files: seq<CsvFile>): seq<LogEntry>
  {
    if files == [] then []
    else
      var n := |files| - 1;
      UploadsLog(respond, first, projectId, formId, files[..n])
        + UploadLog(files[n].fileName, ClassifyUpload(respond(first + n, Upload(projectId, formId, files[n]))))
  }

  /** Uploads never log an error, whatever the server answers. */
  lemma {:induction false} UploadsLogHasNoError(respond: (nat, Request) -> int, first: nat, projectId: int,
                                                formId: string, files: seq<CsvFile>)
    ensures forall e :: e in UploadsLog(respond, first, projectId, formId, files) ==> !e.Error?
  {
    if files != [] {
      var n := |files| - 1;
      UploadsLogHasNoError(respond, first, projectId, formId, files[..n]);
      UploadLogByStatus(files[n].fileName, respond(first + n, Upload(projectId, formId, files[n])));
    }
  }

  /** The requests of a publish cycle whose draft was accepted. */
  function PublishCycle(projectId: int, formId: string, files: seq<CsvFile>): (rs: seq<Request>)
    ensures |rs| == |files| + 2
    ensures rs[0] == DraftRequest(projectId, formId)
    ensures forall k :: 0 <= k < |files| ==>
              rs[k + 1] == AttachmentRequest(projectId, formId, files[k].fileName, files[k].table)
    ensures rs[|files| + 1] == PublishRequest(projectId, formId)
  {
    [DraftRequest(projectId, formId)] + Uploads(projectId, formId, files) + [PublishRequest(projectId, formId)]
  }

  /** A publish cycle attaches the four exports in order, each under its file name. */
  lemma CycleUploadsExports(projectId: int, formId: string, nomenclatures: seq<NomenclatureRow>,
                            taxa: seq<TaxonRow>, observers: seq<ObserverRow>, organizations: Table)
    ensures var rs := PublishCycle(projectId, formId, Attachments(nomenclatures, taxa, observers, organizations));
            && |rs| == 6
            && rs[1] == AttachmentRequest(projectId, formId, NomenclaturesFile, GetNomenclatures(nomenclatures))
            && rs[2] == AttachmentRequest(projectId, formId, TaxonsFile, GetTaxons(taxa))
            && rs[3] == AttachmentRequest(projectId, formId, ObserversFile, GetObservers(observers))
            && rs[4] == AttachmentRequest(projectId, formId, OrganizationsFile, organizations)
  {
  }

  // ---------------------------------------------------------------------------
  // The calls to ODK Central
  // ---------------------------------------------------------------------------

  /** draft: asks for a draft of the form; anything but 200 fails the assertion. */
  method Draft(central: Central, projectId: int, formId: string) returns (outcome: Outcome)
    modifies central
    ensures central.requests == old(central.requests) + [DraftRequest(projectId, formId)]
    ensures outcome == Asserted200(central.respond(|old(central.requests)|, DraftRequest(projectId, formId)))
  {
    var status := central.Send(DraftRequest(projectId, formId));
    outcome := Asserted200(status);
  }

  /** upload_file: attaches one file to the draft and logs how the server answered; never raises. */
  method UploadFile(central: Central, logger: Logger, projectId: int, formId: string, file: CsvFile)
    modifies central, logger
    ensures central.requests == old(central.requests) + [Upload(projectId, formId, file)]
    ensures logger.entries == old(logger.entries) + UploadLog(file.fileName, ClassifyUpload(
              central.respond(|old(central.requests)|, Upload(projectId, formId, file))))
  {
    var status := central.Send(AttachmentRequest(projectId, formId, file.fileName, file.table));
    var outcome := ClassifyUpload(status);
    match outcome
    case NotInFormDefinition =>
      logger.Log(Warning(FileNotInForm(file.fileName)));
    case Uploaded =>
      logger.Log(Info(FileUploaded(file.fileName)));
    case Ignored(_) =>
  }

  /** publish: publishes the draft; anything but 200 fails the assertion. */
  method Publish(central: Central, projectId: int, formId: string) returns (outcome: Outcome)
    modifies central
    ensures central.requests == old(central.requests) + [PublishRequest(projectId, formId)]
    ensures outcome == Asserted200(central.respond(|old(central.requests)|, PublishRequest(projectId, formId)))
  {
    var status := central.Send(PublishRequest(projectId, formId));
    outcome := Asserted200(status);
  }

  /** update_review_state: patches a submission's review state; a refusal is logged, not raised. */
  method UpdateReviewState(central: Central, logger: Logger, projectId: int, formId: string,
                           submissionId: string, reviewState: string)
    modifies central, logger
    ensures central.requests == old(central.requests) + [ReviewRequest(projectId, formId, submissionId, reviewState)]
    ensures logger.entries == old(logger.entries) + ReviewLog(
              central.respond(|old(central.requests)|, ReviewRequest(projectId, formId, submissionId, reviewState)))
  {
    var status := central.Send(ReviewRequest(projectId, formId, submissionId, reviewState));
    if status != 200 {
      logger.Log(Error(ReviewStateNotUpdated));
    }
  }

  /**
   * get_submissions: asks for the form's submissions under the closed-state
   * filter; the server answers with the submissions the filter it received
   * lets through.
   */
  method GetSubmissions(central: Central, projectId: int, formId: string) returns (open: seq<Submission>)
    modifies central
    ensures central.requests == old(central.requests) + [TableRequest(projectId, formId, SubmissionsFilter)]
    ensures open == OpenSubmissions(central.submissions(projectId, formId), ExcludedBy(SubmissionsFilter))
    ensures forall s :: s in open <==>
              s in central.submissions(projectId, formId) && Admits(ExcludedReviewStates, s.reviewState)
  {
    var request := TableRequest(projectId, formId, SubmissionsFilter);
    var _ := central.Send(request);
    open := OpenSubmissions(central.submissions(projectId, formId), ExcludedBy(request.filter));
    SubmissionsFilterExcludes();
  }

  /**
   * update_odk_form: writes the files, asks for a draft, uploads every file
   * in order whatever each upload answers, and publishes. A refused draft
   * ends the cycle before any upload.
   */
  method UpdateOdkForm(central: Central, logger: Logger, projectId: int, formId: string,
                       nomenclatures: seq<NomenclatureRow>, taxa: seq<TaxonRow>, observers: seq<ObserverRow>,
                       organizations: Table)
    returns (outcome: Outcome)
    modifies central, logger
    ensures var first := |old(central.requests)|;
            central.respond(first, DraftRequest(projectId, formId)) != 200 ==>
              && central.requests == old(central.requests) + [DraftRequest(projectId, formId)]
              && logger.entries == old(logger.entries)
              && outcome == AssertionFailed
    ensures var first := |old(central.requests)|;
            var files := Attachments(nomenclatures, taxa, observers, organizations);
            central.respond(first, DraftRequest(projectId, formId)) == 200 ==>
              && central.requests == old(central.requests) + PublishCycle(projectId, formId, files)
              && logger.entries == old(logger.entries) + UploadsLog(central.respond, first + 1, projectId, formId, files)
              && outcome == Asserted200(central.respond(first + 1 + |files|, PublishRequest(projectId, formId)))
  {
    var files := WriteFiles(nomenclatures, taxa, observers, organizations);
    ghost var sent := central.requests;
    outcome := Draft(central, projectId, formId);
    if outcome == AssertionFailed {
      return;
    }
    ghost var drafted := central.requests;
    assert |drafted| == |sent| + 1;
    UploadFiles(central, logger, projectId, formId, files);
    ghost var uploaded := central.requests;
    assert |uploaded| == |sent| + 1 + |files|;
    outcome := Publish(central, projectId, formId);
    CycleRequests(sent, projectId, formId, files, drafted, uploaded, central.requests);
  }

  /** Draft, then the uploads, then publish: the requests of a publish cycle. */
  lemma CycleRequests(sent: seq<Request>, projectId: int, formId: string, files: seq<CsvFile>,
                      drafted: seq<Request>, uploaded: seq<Request>, published: seq<Request>)
    requires drafted == sent + [DraftRequest(projectId, formId)]
    requires uploaded == drafted + Uploads(projectId, formId, files)
    requires published == uploaded + [PublishRequest(projectId, formId)]
    ensures published == sent + PublishCycle(projectId, formId, files)
  {
  }

  /** The loop of update_odk_form: every file uploaded in order, whatever each upload answers. */
  method UploadFiles(central: Central, logger: Logger, projectId: int, formId: string, files: seq<CsvFile>)
    modifies central, logger
    ensures central.requests == old(central.requests) + Uploads(projectId, formId, files)
    ensures logger.entries == old(logger.entries)
              + UploadsLog(central.respond, |old(central.requests)|, projectId, formId, files)
  {
    ghost var sent, logged := central.requests, logger.entries;
    ghost var first := |sent|;
    for k := 0 to |files|
      invariant central.requests == sent + Uploads(projectId, formId, files[..k])
      invariant logger.entries == logged + UploadsLog(central.respond, first, projectId, formId, files[..k])
    {
      UploadsGrow(projectId, formId, files, k);
      assert |central.requests| == first + k;
      ghost var before, written := central.requests, logger.entries;
      UploadFile(central, logger, projectId, formId, files[k]);
      AppendAfter(sent, Uploads(projectId, formId, files[..k]), Uploads(projectId, formId, files[..k + 1]),
                  [Upload(projectId, formId, files[k])], before, central.requests);
      UploadsLogStep(central.respond, first, projectId, formId, files, k, logged, written, logger.entries);
    }
    assert files[..|files|] == files;
  }

  /** Extending a sequence that follows a fixed prefix extends the whole. */
  lemma AppendAfter<T>(prefix: seq<T>, xs: seq<T>, ys: seq<T>, extra: seq<T>, mid: seq<T>, end: seq<T>)
    requires ys == xs + extra
    requires mid == prefix + xs
    requires end == mid + extra
    ensures end == prefix + ys
  {
  }

  /** The requests for one more file are those for the files before it, then its upload. */
  lemma UploadsGrow(projectId: int, formId: string, files: seq<CsvFile>, k: nat)
    requires k < |files|
    ensures |Uploads(projectId, formId, files[..k])| == k
    ensures Uploads(projectId, formId, files[..k + 1])
            == Uploads(projectId, formId, files[..k]) + [Upload(projectId, formId, files[k])]
  {
    var a := Uploads(projectId, formId, files[..k + 1]);
    var b := Uploads(projectId, formId, files[..k]) + [Upload(projectId, formId, files[k])];
    assert |a| == |b|;
    assert forall i :: 0 <= i < |a| ==> a[i] == b[i];
  }

  /** Uploading one more file, as the request numbered first + k, adds that upload's log after the rest. */
  lemma UploadsLogStep(respond: (nat, Request) -> int, first: nat, projectId: int, formId: string,
                       files: seq<CsvFile>, k: nat, logged: seq<LogEntry>, written: seq<LogEntry>,
                       rewritten: seq<LogEntry>)
    requires k < |files|
    requires written == logged + UploadsLog(respond, first, projectId, formId, files[..k])
    requires rewritten == written + UploadLog(files[k].fileName, ClassifyUpload(
               respond(first + k, Upload(projectId, formId, files[k]))))
    ensures rewritten == logged + UploadsLog(respond, first, projectId, formId, files[..k + 1])
  {
    assert files[..k + 1][..k] == files[..k];
  }
}
