/**
 * The deterministic part of HtmlReportProcessingStrategy: which columns the
 * upgrade table has, what each header and row cell holds and how it is
 * styled, the colour every repository label gets, the footer count, and the
 * outcome of processing a list of component upgrades. A cell's style is kept
 * as the list of style fragments whose concatenation is its style attribute.
 */
module ProcessingStrategies {

  import opened Wrappers
  import opened Refs

  const TH_TD_STYLES: string := "border-bottom: 1px solid #ddd;padding: 5px;text-align: left;"
  const GAV_STYLES: string := "font-family: \"Courier New\";"
  const REPO_LABEL_STYLES: string := "border-radius: 5px;padding: 3px;"
  const BG_NEW: string := "background-color: #fffeec;"
  const BG1: string := "background-color: #a8df65;"
  const BG2: string := "background-color: #edf492;"
  const BG3: string := "background-color: #efb960;"
  const BG4: string := "background-color: #ee91bc;"

  /** The repository label colours, in the order they are handed out. */
  const BACKGROUNDS: seq<string> := [BG1, BG2, BG3, BG4]

  /** The message of the exception that wraps any failure while building the report. */
  const ReportFailedMessage: string := "Report generation failed"

  /** A configured repository: its key and its URL. */
  datatype Repository = Repository(key: string, url: string)

  /** The parts of the configuration the report reads: the repositories in key order and whether the first-seen logger is set. */
  datatype Configuration = Configuration(repositories: seq<Repository>, loggerSet: bool)

  /** The moment a component upgrade was first seen; its text comes from the date formatter. */
  datatype Timestamp = Timestamp(epochSecond: int)

  /** One possible upgrade of a dependency. `firstSeen` is None where the source has null. */
  datatype ComponentUpgrade = ComponentUpgrade(
    artifact: ArtifactRef,
    newVersion: string,
    repository: string,
    firstSeen: Option<Timestamp>)

  /** What a cell shows: plain text, or a styled label (a span). */
  datatype Content = Text(text: string) | Label(labelText: string, labelStyles: seq<string>)

  /** A header or data cell and its style fragments. */
  datatype Cell = Cell(content: Content, styles: seq<string>)

  datatype Column = GavColumn | NewVersionColumn | RepositoryColumn | SinceColumn

  /** One entry of the list of searched repositories. */
  datatype LegendItem = LegendItem(repositoryLabel: Content, text: string)

  /** The last row of the table: one cell with the item count. */
  datatype Footer = Footer(text: string, styles: seq<string>, colspan: string)

  datatype Report = Report(legend: seq<LegendItem>, headers: seq<Cell>, rows: seq<seq<Cell>>, footer: Footer)

  /**
   * NothingToReport: true returned at once, no output opened.
   * Reported: the report was rendered and printed, true returned.
   * Failed: the RuntimeException thrown by process.
   */
  datatype ProcessOutcome = NothingToReport | Reported(report: Report) | Failed(message: string)

  /** The columns of the table, in order. */
  function Columns(loggerSet: bool): (cols: seq<Column>)
    ensures |cols| == if loggerSet then 4 else 3
    ensures cols[..3] == [GavColumn, NewVersionColumn, RepositoryColumn]
    ensures SinceColumn in cols <==> loggerSet
  {
    [GavColumn, NewVersionColumn, RepositoryColumn] + (if loggerSet then [SinceColumn] else [])
  }

  function ColumnTitle(col: Column): string {
    match col
    case GavColumn => "GAV"
    case NewVersionColumn => "New Version"
    case RepositoryColumn => "Repository"
    case SinceColumn => "Since"
  }

  /** The header cells: one per column, each styled like every table cell. */
  function HeaderCells(loggerSet: bool): seq<Cell> {
    var cols := Columns(loggerSet);
    seq(|cols|, i requires 0 <= i < |cols| => Cell(Text(ColumnTitle(cols[i])), [TH_TD_STYLES]))
  }

  /** An upgrade is new when it was never seen before and the first-seen logger is set. */
  predicate IsNew(upgrade: ComponentUpgrade, loggerSet: bool) {
    upgrade.firstSeen.None? && loggerSet
  }

  function Highlight(isNew: bool): seq<string> {
    if isNew then [BG_NEW] else []
  }

  /** The g:a:v text of an artifact. */
  function GavText(artifact: ArtifactRef): string {
    artifact.groupId + ":" + artifact.artifactId + ":" + artifact.versionString
  }

  /** The text of the Since column. */
  function SinceText(firstSeen: Option<Timestamp>, format: Timestamp -> string): string {
    match firstSeen
    case None => "new"
    case Some(t) => format(t)
  }

  /** The data cell of one column, given the colour of the upgrade's repository. */
  function ColumnCell(col: Column, upgrade: ComponentUpgrade, loggerSet: bool, color: string, format: Timestamp -> string): Cell {
    var highlight := Highlight(IsNew(upgrade, loggerSet));
    match col
    case GavColumn => Cell(Text(GavText(upgrade.artifact)), [TH_TD_STYLES, GAV_STYLES] + highlight)
    case NewVersionColumn => Cell(Text(upgrade.newVersion), [TH_TD_STYLES] + highlight)
    case RepositoryColumn => Cell(Label(upgrade.repository, [REPO_LABEL_STYLES, color]), [TH_TD_STYLES] + highlight)
    case SinceColumn => Cell(Text(SinceText(upgrade.firstSeen, format)), [TH_TD_STYLES] + highlight)
  }

  /** The data cells of one row, column by column. */
  function RowCells(loggerSet: bool, upgrade: ComponentUpgrade, color: string, format: Timestamp -> string): seq<Cell> {
    var cols := Columns(loggerSet);
    seq(|cols|, i requires 0 <= i < |cols| => ColumnCell(cols[i], upgrade, loggerSet, color, format))
  }

  /** List.indexOf: the first position of `key`, or -1. */
  function IndexOf(keys: seq<string>, key: string): (idx: int)
    ensures -1 <= idx < |keys|
    ensures idx == -1 <==> key !in keys
    ensures idx >= 0 ==> keys[idx] == key && forall j :: 0 <= j < idx ==> keys[j] != key
  {
    if keys == [] then -1
    else if keys[0] == key then 0
    else
      var rest := IndexOf(keys[1..], key);
      if rest == -1 then -1 else rest + 1
  }

  /** Java's int division for a positive divisor: the quotient is truncated toward zero. */
  function JavaQuot(a: int, b: int): int
    requires b > 0
  {
    if a >= 0 then a / b else -((-a) / b)
  }

  /**
   * Java's int remainder for a positive divisor: together with the truncated
   * quotient it rebuilds the dividend, it is smaller than the divisor in
   * magnitude, and it takes the sign of the dividend.
   */
  function JavaRem(a: int, b: int): (r: int)
    requires b > 0
    ensures a == b * JavaQuot(a, b) + r
    ensures a >= 0 ==> 0 <= r < b
    ensures a < 0 ==> -b < r <= 0
  {
    if a >= 0 then a % b
    else
      var q, m := (-a) / b, (-a) % b;
      assert -a == b * q + m;
      assert b * (-q) == -(b * q);
      -m
  }

  /**
   * repositoryColor: BACKGROUNDS[indexOf(key) % 4]. None stands for the
   * ArrayIndexOutOfBoundsException raised on index -1 for a key that is not configured.
   */
  function RepositoryColor(repositoryKeys: seq<string>, key: string): (r: Option<string>)
    ensures r.Some? <==> key in repositoryKeys
    ensures r.Some? ==> r.value == BACKGROUNDS[IndexOf(repositoryKeys, key) % 4]
  {
    var slot := JavaRem(IndexOf(repositoryKeys, key), |BACKGROUNDS|);
    if 0 <= slot < |BACKGROUNDS| then Some(BACKGROUNDS[slot]) else None
  }

  /** For a key that is not configured, the slot is -1, so the BACKGROUNDS access is out of bounds. */
  lemma UnknownKeySlot(repositoryKeys: seq<string>, key: string)
    requires key !in repositoryKeys
    ensures JavaRem(IndexOf(repositoryKeys, key), |BACKGROUNDS|) == -1
  {
  }

  /** The keys of the configured repositories, in configuration order. */
  function RepositoryKeys(config: Configuration): seq<string> {
    seq(|config.repositories|, i requires 0 <= i < |config.repositories| => config.repositories[i].key)
  }

  /** The row of one upgrade; None when its repository has no colour. */
  function ExpectedRow(loggerSet: bool, repositoryKeys: seq<string>, format: Timestamp -> string, upgrade: ComponentUpgrade): Option<seq<Cell>> {
    match RepositoryColor(repositoryKeys, upgrade.repository)
    case None => None
    case Some(color) => Some(RowCells(loggerSet, upgrade, color, format))
  }

  /** The rows of all upgrades, in order; None as soon as one row fails. */
  function Rows(loggerSet: bool, repositoryKeys: seq<string>, format: Timestamp -> string, upgrades: seq<ComponentUpgrade>): (r: Option<seq<seq<Cell>>>)
    ensures r.Some? <==> forall i :: 0 <= i < |upgrades| ==> upgrades[i].repository in repositoryKeys
    ensures r.Some? ==> |r.value| == |upgrades|
    ensures r.Some? ==> forall i :: 0 <= i < |upgrades| ==> ExpectedRow(loggerSet, repositoryKeys, format, upgrades[i]) == Some(r.value[i])
    decreases |upgrades|
  {
    if upgrades == [] then Some([])
    else
      var n := |upgrades| - 1;
      var front := Rows(loggerSet, repositoryKeys, format, upgrades[..n]);
      match front
      case None => None
      case Some(rows) =>
        match ExpectedRow(loggerSet, repositoryKeys, format, upgrades[n])
        case None => None
        case Some(row) => Some(rows + [row])
  }

  /** The list of searched repositories, each label coloured; None when a key has no colour. */
  function Legend(repositories: seq<Repository>, repositoryKeys: seq<string>): (r: Option<seq<LegendItem>>)
    ensures r.Some? <==> forall i :: 0 <= i < |repositories| ==> repositories[i].key in repositoryKeys
    ensures r.Some? ==> |r.value| == |repositories|
    ensures r.Some? ==> forall i :: 0 <= i < |repositories| ==>
              r.value[i] == LegendItem(Label(repositories[i].key,
                                             [REPO_LABEL_STYLES, BACKGROUNDS[IndexOf(repositoryKeys, repositories[i].key) % 4]]),
                                       " " + repositories[i].url)
  {
    if forall i :: 0 <= i < |repositories| ==> repositories[i].key in repositoryKeys then
      Some(seq(|repositories|, i requires 0 <= i < |repositories| && repositories[i].key in repositoryKeys =>
        LegendItem(Label(repositories[i].key, [REPO_LABEL_STYLES, RepositoryColor(repositoryKeys, repositories[i].key).value]),
                   " " + repositories[i].url)))
    else None
  }

  function DigitChar(d: nat): char
    requires d < 10
  {
    "0123456789"[d]
  }

  /** The number a string of decimal digits denotes, most significant digit first. */
  function DecimalValue(s: string): nat
    requires forall i :: 0 <= i < |s| ==> '0' <= s[i] <= '9'
    decreases |s|
  {
    if s == [] then 0
    else 10 * DecimalValue(s[..|s| - 1]) + (s[|s| - 1] as int - '0' as int)
  }

  /** The decimal text of a count, as Java's string concatenation writes an int. */
  function NatToString(n: nat): (s: string)
    ensures |s| >= 1
    ensures forall i :: 0 <= i < |s| ==> '0' <= s[i] <= '9'
    ensures |s| > 1 ==> s[0] != '0'
    ensures DecimalValue(s) == n
    decreases n
  {
    if n < 10 then [DigitChar(n)]
    else
      var s := NatToString(n / 10) + [DigitChar(n % 10)];
      assert s[..|s| - 1] == NatToString(n / 10);
      s
  }

  /** The footer: the count followed by " items", spanning four columns whatever the column count. */
  function FooterCell(count: nat): Footer {
    Footer(NatToString(count) + " items", [TH_TD_STYLES], "4")
  }

  /**
   * What process yields for `upgrades`, where `sortAndAggregate` stands for
   * the sort by ComponentUpgradeComparator followed by the aggregation.
   */
  function ExpectedOutcome(config: Configuration, repositoryKeys: seq<string>, format: Timestamp -> string,
                           upgrades: seq<ComponentUpgrade>,
                           sortAndAggregate: seq<ComponentUpgrade> -> seq<ComponentUpgrade>): ProcessOutcome
  {
    if |upgrades| == 0 then NothingToReport
    else
      var aggregated := sortAndAggregate(upgrades);
      match Legend(config.repositories, repositoryKeys)
      case None => Failed(ReportFailedMessage)
      case Some(legend) =>
        match Rows(config.loggerSet, repositoryKeys, format, aggregated)
        case None => Failed(ReportFailedMessage)
        case Some(rows) =>
          Reported(Report(legend, HeaderCells(config.loggerSet), rows, FooterCell(|aggregated|)))
  }

  /** The headers are GAV, New Version, Repository, and Since exactly when the logger is set. */
  lemma HeadersShape(loggerSet: bool)
    ensures |HeaderCells(loggerSet)| == if loggerSet then 4 else 3
    ensures HeaderCells(loggerSet)[0].content == Text("GAV")
    ensures HeaderCells(loggerSet)[1].content == Text("New Version")
    ensures HeaderCells(loggerSet)[2].content == Text("Repository")
    ensures loggerSet ==> HeaderCells(loggerSet)[3].content == Text("Since")
    ensures forall i :: 0 <= i < |HeaderCells(loggerSet)| ==> HeaderCells(loggerSet)[i].styles == [TH_TD_STYLES]
  {
  }

  /** A row has one cell per header, and cell i belongs to the column of header i. */
  lemma RowMatchesHeaders(loggerSet: bool, upgrade: ComponentUpgrade, color: string, format: Timestamp -> string)
    ensures |RowCells(loggerSet, upgrade, color, format)| == |HeaderCells(loggerSet)|
    ensures forall i :: 0 <= i < |HeaderCells(loggerSet)| ==>
              HeaderCells(loggerSet)[i].content == Text(ColumnTitle(Columns(loggerSet)[i])) &&
              RowCells(loggerSet, upgrade, color, format)[i] == ColumnCell(Columns(loggerSet)[i], upgrade, loggerSet, color, format)
  {
  }

  /** Either every cell of a row carries the "new" background or none does, and it is every cell exactly when the upgrade is new. */
  lemma RowHighlighting(loggerSet: bool, upgrade: ComponentUpgrade, color: string, format: Timestamp -> string, i: nat)
    requires i < |RowCells(loggerSet, upgrade, color, format)|
    ensures BG_NEW in RowCells(loggerSet, upgrade, color, format)[i].styles <==> upgrade.firstSeen.None? && loggerSet
  {
  }

  /** The GAV cell reads groupId:artifactId:version, and the Since cell "new" or the formatted first-seen date. */
  lemma RowTexts(loggerSet: bool, upgrade: ComponentUpgrade, color: string, format: Timestamp -> string)
    ensures var cells := RowCells(loggerSet, upgrade, color, format);
            && cells[0].content == Text(upgrade.artifact.groupId + ":" + upgrade.artifact.artifactId + ":" + upgrade.artifact.versionString)
            && cells[1].content == Text(upgrade.newVersion)
            && cells[2].content == Label(upgrade.repository, [REPO_LABEL_STYLES, color])
            && (loggerSet ==> cells[3].content == Text(if upgrade.firstSeen.None? then "new" else format(upgrade.firstSeen.value)))
  {
  }

  /** Keys whose positions differ by a multiple of four get the same colour. */
  lemma ColorsCycle(repositoryKeys: seq<string>, i: nat, j: nat)
    requires forall a, b :: 0 <= a < b < |repositoryKeys| ==> repositoryKeys[a] != repositoryKeys[b]
    requires i < |repositoryKeys| && j < |repositoryKeys| && i % 4 == j % 4
    ensures RepositoryColor(repositoryKeys, repositoryKeys[i]) == Some(BACKGROUNDS[i % 4])
    ensures RepositoryColor(repositoryKeys, repositoryKeys[i]) == RepositoryColor(repositoryKeys, repositoryKeys[j])
  {
  }

  /** Every configured repository key has a colour, so the legend never fails. */
  lemma LegendOfConfiguration(config: Configuration)
    ensures Legend(config.repositories, RepositoryKeys(config)).Some?
    ensures |Legend(config.repositories, RepositoryKeys(config)).value| == |config.repositories|
  {
    var keys := RepositoryKeys(config);
    forall i | 0 <= i < |config.repositories| ensures config.repositories[i].key in keys {
      assert keys[i] == config.repositories[i].key;
    }
  }

  /**
   * Over the configured keys, processing a non-empty list fails exactly when
   * some aggregated upgrade names a repository that is not configured.
   */
  lemma ProcessFailsOnUnknownRepository(config: Configuration, format: Timestamp -> string,
                                        upgrades: seq<ComponentUpgrade>,
                                        sortAndAggregate: seq<ComponentUpgrade> -> seq<ComponentUpgrade>)
    ensures var outcome := ExpectedOutcome(config, RepositoryKeys(config), format, upgrades, sortAndAggregate);
            outcome.Failed? <==>
              upgrades != [] &&
              exists i :: 0 <= i < |sortAndAggregate(upgrades)| &&
                          sortAndAggregate(upgrades)[i].repository !in RepositoryKeys(config)
  {
    LegendOfConfiguration(config);
  }

  /** A rendered report: one row per aggregated upgrade, each as wide as the header, and the footer count. */
  lemma ReportShape(config: Configuration, repositoryKeys: seq<string>, format: Timestamp -> string,
                    upgrades: seq<ComponentUpgrade>,
                    sortAndAggregate: seq<ComponentUpgrade> -> seq<ComponentUpgrade>)
    requires ExpectedOutcome(config, repositoryKeys, format, upgrades, sortAndAggregate).Reported?
    ensures var report := ExpectedOutcome(config, repositoryKeys, format, upgrades, sortAndAggregate).report;
            && upgrades != []
            && |report.legend| == |config.repositories|
            && report.headers == HeaderCells(config.loggerSet)
            && |report.rows| == |sortAndAggregate(upgrades)|
            && (forall i :: 0 <= i < |report.rows| ==> |report.rows[i]| == |report.headers|)
            && report.footer.text == NatToString(|sortAndAggregate(upgrades)|) + " items"
            && report.footer.colspan == "4"
  {
  }

  class HtmlReportProcessingStrategy {
    const configuration: Configuration
    const dateFormatter: Timestamp -> string
    var repositoryKeys: seq<string>

    /** The key list is the configuration's, as initRepositoryKeys leaves it. */
    ghost predicate Valid()
      reads this
    {
      repositoryKeys == RepositoryKeys(configuration)
    }

    /** The three constructors of the source, which differ only in where the output goes. */
    constructor (configuration: Configuration, dateFormatter: Timestamp -> string)
      ensures this.configuration == configuration && this.dateFormatter == dateFormatter
      ensures Valid()
    {
      this.configuration := configuration;
      this.dateFormatter := dateFormatter;
      repositoryKeys := [];
      new;
      InitRepositoryKeys();
    }

    /** initRepositoryKeys: a copy of the configured repository keys, in order. */
    method InitRepositoryKeys()
      modifies this
      ensures repositoryKeys == RepositoryKeys(configuration)
      ensures |repositoryKeys| == |configuration.repositories|
      ensures forall i :: 0 <= i < |repositoryKeys| ==> repositoryKeys[i] == configuration.repositories[i].key
    {
      repositoryKeys := RepositoryKeys(configuration);
    }

    /** tableHeaders: three headers, and Since when the logger is set. */
    method TableHeaders() returns (headers: seq<Cell>)
      ensures headers == HeaderCells(configuration.loggerSet)
    {
      headers := [];
      headers := headers + [Cell(Text("GAV"), [TH_TD_STYLES])];
      headers := headers + [Cell(Text("New Version"), [TH_TD_STYLES])];
      headers := headers + [Cell(Text("Repository"), [TH_TD_STYLES])];
      if configuration.loggerSet {
        headers := headers + [Cell(Text("Since"), [TH_TD_STYLES])];
      }
    }

    /** tableRowData: the cells of one upgrade; None when its repository colour lookup throws. */
    method TableRowData(upgrade: ComponentUpgrade) returns (cells: Option<seq<Cell>>)
      ensures cells == ExpectedRow(configuration.loggerSet, repositoryKeys, dateFormatter, upgrade)
    {
      var isNew := upgrade.firstSeen.None? && configuration.loggerSet;
      var highlight: seq<string> := if isNew then [BG_NEW] else [];
      var row: seq<Cell> := [];
      row := row + [Cell(Text(upgrade.artifact.groupId + ":" + upgrade.artifact.artifactId + ":" + upgrade.artifact.versionString),
                         [TH_TD_STYLES, GAV_STYLES] + highlight)];
      row := row + [Cell(Text(upgrade.newVersion), [TH_TD_STYLES] + highlight)];
      var color := RepositoryColor(repositoryKeys, upgrade.repository);
      if color.None? {
        return None;
      }
      row := row + [Cell(Label(upgrade.repository, [REPO_LABEL_STYLES, color.value]), [TH_TD_STYLES] + highlight)];
      if configuration.loggerSet {
        var since := if upgrade.firstSeen.None? then "new" else dateFormatter(upgrade.firstSeen.value);
        row := row + [Cell(Text(since), [TH_TD_STYLES] + highlight)];
      }
      ghost var expected := RowCells(configuration.loggerSet, upgrade, color.value, dateFormatter);
      assert |row| == |expected|;
      assert row[0] == expected[0];
      assert row[1] == expected[1];
      assert row[2] == expected[2];
      assert |row| == 4 ==> row[3] == expected[3];
      assert row == expected;
      cells := Some(row);
    }

    /** The table body: tableRowData for each aggregated upgrade, in order, stopping at the first failure. */
    method TableRows(aggregated: seq<ComponentUpgrade>) returns (rows: Option<seq<seq<Cell>>>)
      ensures rows == Rows(configuration.loggerSet, repositoryKeys, dateFormatter, aggregated)
    {
      var done: seq<seq<Cell>> := [];
      var i := 0;
      while i < |aggregated|
        invariant 0 <= i <= |aggregated|
        invariant Rows(configuration.loggerSet, repositoryKeys, dateFormatter, aggregated[..i]) == Some(done)
      {
        var row := TableRowData(aggregated[i]);
        if row.None? {
          assert aggregated[i].repository !in repositoryKeys;
          return None;
        }
        assert aggregated[..i + 1][..i] == aggregated[..i];
        done := done + [row.value];
        i := i + 1;
      }
      assert aggregated[..i] == aggregated;
      rows := Some(done);
    }

    /**
     * process: an empty list returns at once; otherwise the legend, the
     * headers, one row per aggregated upgrade and the footer.
     */
    method Process(upgrades: seq<ComponentUpgrade>, sortAndAggregate: seq<ComponentUpgrade> -> seq<ComponentUpgrade>)
      returns (outcome: ProcessOutcome)
      requires Valid()
      ensures upgrades == [] ==> outcome == NothingToReport
      ensures upgrades != [] ==>
                (outcome.Failed? <==>
                   exists i :: 0 <= i < |sortAndAggregate(upgrades)| &&
                               sortAndAggregate(upgrades)[i].repository !in RepositoryKeys(configuration))
      ensures outcome.Reported? ==>
                outcome.report.footer == FooterCell(|sortAndAggregate(upgrades)|) &&
                |outcome.report.rows| == |sortAndAggregate(upgrades)|
      ensures outcome == ExpectedOutcome(configuration, repositoryKeys, dateFormatter, upgrades, sortAndAggregate)
    {
      ProcessFailsOnUnknownRepository(configuration, dateFormatter, upgrades, sortAndAggregate);
      if |upgrades| == 0 {
        return NothingToReport;
      }
      var aggregated := sortAndAggregate(upgrades);
      var legend := Legend(configuration.repositories, repositoryKeys);
      if legend.None? {
        return Failed(ReportFailedMessage);
      }
      var headers := TableHeaders();
      var rows := TableRows(aggregated);
      if rows.None? {
        return Failed(ReportFailedMessage);
      }
      outcome := Reported(Report(legend.value, headers, rows.value, FooterCell(|aggregated|)));
    }
  }

}
