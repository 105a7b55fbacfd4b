/** The page by page scan of one set of sources, and which of its rows lead to an investigation. */
module SourceScan {
  import opened Text

  datatype Source = Source(status: string, collectedObservationId: string, observationId: string)

  const PAGE := 100
  const PAGES := 1000
  const SYNCS := "DsfModelSyncs"

  predicate Eligible(entitySet: string, row: Source) {
    if entitySet == SYNCS then row.status != "Draft" && row.status != "Paused"
    else row.status == "Active" || row.status == "Refreshing"
  }

  function ObservationOf(row: Source): string {
    if row.collectedObservationId == "" then row.observationId else row.collectedObservationId
  }

  predicate IsLookedUp(entitySet: string, row: Source) {
    Eligible(entitySet, row) && ObservationOf(row) != ""
  }

  /** Entity ids are short and made of letters, digits and four marks; anything else ends the scan. */
  predicate ValidEntityId(id: string) {
    0 < |id| <= 128
    && forall i | 0 <= i < |id| ::
         'a' <= id[i] <= 'z' || 'A' <= id[i] <= 'Z' || '0' <= id[i] <= '9' || id[i] in {'-', '_', '.', ':'}
  }

  predicate Usable(status: Option<string>) {
    status.Some? && status.value in {"Measured", "Absent", "Inaccessible", "Stale"}
  }

  predicate IsSelected(entitySet: string, row: Source, observe: string -> Option<string>) {
    IsLookedUp(entitySet, row) && Usable(observe(ObservationOf(row)))
  }

  /** The rows that lead to an investigation; `observe` is the status under which an observation is found. */
  function Selected(entitySet: string, rows: seq<Source>, observe: string -> Option<string>): seq<Source> {
    if rows == [] then []
    else
      var front, row := Selected(entitySet, rows[..|rows| - 1], observe), rows[|rows| - 1];
      if IsSelected(entitySet, row, observe) then front + [row] else front
  }

  /**
   * What the rows meet outside: the status under which an observation is found, and whether queueing an
   * investigation of the row goes through.
   */
  datatype World = World(observe: string -> Option<string>, accepts: Source -> bool)

  /** The row's source is active, or, for a sync, neither a draft nor paused. */
  ghost predicate InService(entitySet: string, row: Source) {
    if entitySet == "DsfModelSyncs" then !(row.status == "Draft" || row.status == "Paused")
    else row.status == "Active" || row.status == "Refreshing"
  }

  /** Its newest observation: the collected one, else the other, else none. */
  ghost function Newest(row: Source): string {
    if row.collectedObservationId != "" then row.collectedObservationId else row.observationId
  }

  /** The observation was made, or was found to be impossible or outdated. */
  ghost predicate Concluded(status: Option<string>) {
    status == Some("Measured") || status == Some("Absent") || status == Some("Inaccessible") || status == Some("Stale")
  }

  ghost predicate WellFormedId(id: string) {
    1 <= |id| <= 128
    && forall c | c in id ::
         'a' <= c <= 'z' || 'A' <= c <= 'Z' || '0' <= c <= '9' || c == '-' || c == '_' || c == '.' || c == ':'
  }

  /** A row that does not stop the scan. */
  ghost predicate GoesThrough(entitySet: string, row: Source, world: World) {
    InService(entitySet, row) && Newest(row) != "" ==>
      WellFormedId(Newest(row)) && (Concluded(world.observe(Newest(row))) ==> world.accepts(row))
  }

  /** The tests of the scan come to this. */
  lemma TestsMean(entitySet: string, row: Source, world: World)
    ensures GoesThrough(entitySet, row, world)
            <==> (IsLookedUp(entitySet, row) ==> ValidEntityId(ObservationOf(row)))
                 && (IsSelected(entitySet, row, world.observe) ==> world.accepts(row))
    ensures IsSelected(entitySet, row, world.observe)
            <==> InService(entitySet, row) && Newest(row) != "" && Concluded(world.observe(Newest(row)))
  {
    var id := Newest(row);
    assert forall i | 0 <= i < |id| :: id[i] in id;
  }

  /** No row before n stops the scan. */
  ghost predicate AllGoThrough(entitySet: string, rows: seq<Source>, n: nat, world: World)
    requires n <= |rows|
  {
    n == 0 || (AllGoThrough(entitySet, rows, n - 1, world) && GoesThrough(entitySet, rows[n - 1], world))
  }

  lemma {:induction false} AllGoThroughMeans(entitySet: string, rows: seq<Source>, n: nat, world: World)
    requires n <= |rows|
    ensures AllGoThrough(entitySet, rows, n, world) <==> forall i | 0 <= i < n :: GoesThrough(entitySet, rows[i], world)
  {
    if n > 0 {
      AllGoThroughMeans(entitySet, rows, n - 1, world);
    }
  }

  /** Looks at one row; false when its observation id is malformed or queueing it fails. */
  method HandleRow(entitySet: string, row: Source, before: seq<Source>, world: World)
    returns (ok: bool, queued: seq<Source>)
    ensures ok <==> GoesThrough(entitySet, row, world)
    ensures queued == if ok && IsSelected(entitySet, row, world.observe) then before + [row] else before
  {
    ok, queued := true, before;
    TestsMean(entitySet, row, world);
    if IsLookedUp(entitySet, row) {
      if !ValidEntityId(ObservationOf(row)) {
        return false, before;
      }
      if Usable(world.observe(ObservationOf(row))) {
        if !world.accepts(row) {
          return false, before;
        }
        queued := before + [row];
      }
    }
  }

  /** What a scan has done by row n. */
  ghost predicate ScannedTo(entitySet: string, rows: seq<Source>, n: nat, world: World, queued: seq<Source>) {
    n <= |rows| && AllGoThrough(entitySet, rows, n, world) && queued == Selected(entitySet, rows[..n], world.observe)
  }

  lemma ScannedOneMore(
    entitySet: string, rows: seq<Source>, n: nat, world: World, before: seq<Source>, queued: seq<Source>)
    requires ScannedTo(entitySet, rows, n, world, before) && n < |rows| && GoesThrough(entitySet, rows[n], world)
    requires queued == if IsSelected(entitySet, rows[n], world.observe) then before + [rows[n]] else before
    ensures ScannedTo(entitySet, rows, n + 1, world, queued)
  {
    assert rows[..n + 1][..n] == rows[..n];
  }

  /** Handles the rows from `first` up to `next`, or up to one that stops the scan. */
  method HandlePage(
    entitySet: string, rows: seq<Source>, first: nat, next: nat, before: seq<Source>, world: World)
    returns (ok: bool, queued: seq<Source>, handled: nat)
    requires first <= next <= |rows| && ScannedTo(entitySet, rows, first, world, before)
    ensures handled <= next && ScannedTo(entitySet, rows, handled, world, queued)
    ensures ok <==> handled == next
    ensures !ok ==> !GoesThrough(entitySet, rows[handled], world)
  {
    queued, handled := before, first;
    while handled < next
      invariant first <= handled <= next && ScannedTo(entitySet, rows, handled, world, queued)
    {
      ghost var sofar := queued;
      ok, queued := HandleRow(entitySet, rows[handled], queued, world);
      if !ok {
        return;
      }
      ScannedOneMore(entitySet, rows, handled, world, sofar, queued);
      handled := handled + 1;
    }
    ok := true;
  }

  /**
   * Scans a set that does not change meanwhile. Every selected row is queued once and in order, up to the first
   * row with a malformed id or a refused investigation, or to the hundred thousandth; reaching one of these
   * fails the scan.
   */
  method ScanSet(entitySet: string, rows: seq<Source>, world: World)
    returns (ok: bool, queued: seq<Source>, handled: nat)
    ensures ok <==> |rows| < 100000 && forall i | 0 <= i < |rows| :: GoesThrough(entitySet, rows[i], world)
    ensures handled <= |rows| && queued == Selected(entitySet, rows[..handled], world.observe)
    ensures forall i | 0 <= i < handled :: GoesThrough(entitySet, rows[i], world)
    ensures if ok then handled == |rows|
            else handled == 100000 || (handled < |rows| && !GoesThrough(entitySet, rows[handled], world))
  {
    queued, handled := [], 0;
    assert rows[..0] == [];
    for page := 0 to PAGES
      invariant page < PAGES && handled == page * PAGE && ScannedTo(entitySet, rows, handled, world, queued)
    {
      var next := if handled + PAGE <= |rows| then handled + PAGE else |rows|;
      ok, queued, handled := HandlePage(entitySet, rows, handled, next, queued, world);
      AllGoThroughMeans(entitySet, rows, handled, world);
      if !ok || next < page * PAGE + PAGE {
        return;
      }
      if page == PAGES - 1 {
        return false, queued, handled;
      }
    }
    assert false;
  }

  /** Exactly the eligible rows with an observation in a usable state are selected. */
  lemma {:induction false} SelectedHolds(entitySet: string, rows: seq<Source>, observe: string -> Option<string>)
    ensures forall row :: row in Selected(entitySet, rows, observe)
              <==> row in rows && InService(entitySet, row) && Newest(row) != ""
                   && Concluded(observe(Newest(row)))
  {
    if rows != [] {
      SelectedHolds(entitySet, rows[..|rows| - 1], observe);
      assert rows == rows[..|rows| - 1] + [rows[|rows| - 1]];
    }
  }
}
