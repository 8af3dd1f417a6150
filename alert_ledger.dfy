/** The alert-deduplication ledger of AdvancedCryptoScanner: the set of
    (symbol, timeframe, source, day) tuples that have already produced an alert,
    and the signal log it is rebuilt from. The class AdvancedScanner.AdvancedCryptoScanner
    holds the state; this module states what its operations compute. */
module AlertLedger {
  import opened Common

  /** One ledger entry: an alert was issued for this symbol, timeframe and source on this day. */
  datatype AlertKey = AlertKey(symbol: string, timeframe: string, source: string, day: string)

  /** One row of the signal log: time, symbol, name, score, reasons, timeframe, source. */
  datatype LogRow = LogRow(time: string, symbol: string, name: string, score: int,
                           reasons: string, timeframe: string, source: string)

  /** Python's `time[:10]`: the '%Y-%m-%d' day of a '%Y-%m-%d %H:%M:%S' timestamp
      (a shorter string is kept whole). */
  function Day(time: string): (d: string)
    ensures |d| == Min(|time|, 10)
    ensures d <= time
  {
    if |time| <= 10 then time else time[..10]
  }

  /** The tuple the loader projects out of one log row. */
  function RowKey(row: LogRow): AlertKey
  {
    AlertKey(row.symbol, row.timeframe, row.source, Day(row.time))
  }

  /** The ledger rebuilt from the rows of an existing log. */
  function Project(rows: seq<LogRow>): (h: set<AlertKey>)
    ensures forall row :: row in rows ==> RowKey(row) in h
    ensures forall k :: k in h ==> exists row :: row in rows && RowKey(row) == k
  {
    set row | row in rows :: RowKey(row)
  }

  /** The ledger at start-up: empty when there is no log file, else the projection of its rows. */
  function Loaded(log: Option<seq<LogRow>>): set<AlertKey>
  {
    match log
    case None => {}
    case Some(rows) => Project(rows)
  }

  /** The rows of the log; a missing log has none. */
  function LogRows(log: Option<seq<LogRow>>): seq<LogRow>
  {
    match log
    case None => []
    case Some(rows) => rows
  }

  /** `_should_alert`: no alert for this symbol, timeframe and source has been recorded today. */
  predicate ShouldAlert(history: set<AlertKey>, symbol: string, timeframe: string, source: string, today: string)
  {
    AlertKey(symbol, timeframe, source, today) !in history
  }

  /** The ledger after `_log_signal` at time `now`. */
  function Record(history: set<AlertKey>, symbol: string, timeframe: string, source: string, now: string): set<AlertKey>
  {
    history + {AlertKey(symbol, timeframe, source, Day(now))}
  }

  /** The log row `_log_signal` writes. */
  function SignalRow(now: string, symbol: string, name: string, score: int, reasons: string,
                     timeframe: string, source: string): (row: LogRow)
    ensures RowKey(row) == AlertKey(symbol, timeframe, source, Day(now))
  {
    LogRow(now, symbol, name, score, reasons, timeframe, source)
  }

  /** After recording an alert, the same symbol, timeframe and source are suppressed
      for the rest of that day. */
  lemma RecordSuppresses(history: set<AlertKey>, symbol: string, timeframe: string, source: string,
                         now: string, today: string)
    requires Day(now) == today
    ensures !ShouldAlert(Record(history, symbol, timeframe, source, now), symbol, timeframe, source, today)
  {
  }

  /** Recording touches exactly one tuple: every other query answers as before, so a
      different timeframe, source, symbol or day still alerts if it did. */
  lemma RecordIsExact(history: set<AlertKey>, symbol: string, timeframe: string, source: string, now: string,
                      symbol': string, timeframe': string, source': string, today: string)
    ensures ShouldAlert(Record(history, symbol, timeframe, source, now), symbol', timeframe', source', today)
        <==> ShouldAlert(history, symbol', timeframe', source', today)
             && (symbol', timeframe', source', today) != (symbol, timeframe, source, Day(now))
  {
  }

  /** Recording removes nothing and adds one tuple. */
  lemma RecordAddsOne(history: set<AlertKey>, symbol: string, timeframe: string, source: string, now: string)
    ensures history <= Record(history, symbol, timeframe, source, now)
    ensures Record(history, symbol, timeframe, source, now) - history
         <= {AlertKey(symbol, timeframe, source, Day(now))}
    ensures |Record(history, symbol, timeframe, source, now)| <= |history| + 1
  {
  }

  /** Appending a row to the log adds exactly that row's tuple to the projection. */
  lemma ProjectAppend(rows: seq<LogRow>, row: LogRow)
    ensures Project(rows + [row]) == Project(rows) + {RowKey(row)}
  {
    var l, r := Project(rows + [row]), Project(rows) + {RowKey(row)};
    forall k | k in l ensures k in r {
      var w :| w in rows + [row] && RowKey(w) == k;
      if w != row {
        assert w in rows;
      }
    }
  }

  /** Durability: the ledger rebuilt from the log after an alert was logged equals the
      ledger before, with that alert recorded. Together with Loaded this means the
      in-memory set never disagrees with what a restart would load. */
  lemma {:induction false} ReloadAfterRecord(log: Option<seq<LogRow>>, now: string, symbol: string, name: string,
                                             score: int, reasons: string, timeframe: string, source: string)
    ensures Loaded(Some(LogRows(log) + [SignalRow(now, symbol, name, score, reasons, timeframe, source)]))
         == Record(Loaded(log), symbol, timeframe, source, now)
  {
    var rows := LogRows(log);
    ProjectAppend(rows, SignalRow(now, symbol, name, score, reasons, timeframe, source));
    if log.None? {
      assert Project([]) == {};
    }
  }
}
