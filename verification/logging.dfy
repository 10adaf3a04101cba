/**
 * Structured logging: the processor that reshapes every event dictionary into
 * standard fields plus an `extra` dictionary, the human-readable line
 * formatter, and the resolution of the configured log level.
 *
 * An event dictionary is an ordered list of key/value pairs (Python dicts keep
 * insertion order); values are taken in their `str()` form.
 */
module Logging {
  import opened Outcomes
  import opened Text

  type Fields = seq<(string, string)>

  const DefaultContext: string := "default"
  const DefaultCorrelationId: string := "unknown"
  const DefaultLogLevel: string := "INFO"
  const MaxValueLength: nat := 50
  const CorrelationIdDisplayLength: nat := 8

  /** Keys that stay at the top level of a processed event. */
  const StandardFields: set<string> := {"timestamp", "logger", "message", "context", "level"}

  // ---------------------------------------------------------------------------
  // Dictionary operations
  // ---------------------------------------------------------------------------

  /** `d.get(k)`. */
  function Get(f: Fields, k: string): Option<string> {
    if |f| == 0 then None else if f[0].0 == k then Some(f[0].1) else Get(f[1..], k)
  }

  function GetOr(f: Fields, k: string, default: string): (r: string)
    ensures Get(f, k).Some? ==> r == Get(f, k).value
    ensures Get(f, k).None? ==> r == default
  {
    match Get(f, k)
    case Some(v) => v
    case None => default
  }

  /** `d[k] = v`: an existing key keeps its position, a new key goes last. */
  function Put(f: Fields, k: string, v: string): (r: Fields)
    ensures Get(r, k) == Some(v)
    ensures forall k' :: k' != k ==> Get(r, k') == Get(f, k')
    ensures forall i :: 0 <= i < |r| ==> r[i].0 == k || Get(f, r[i].0).Some?
  {
    if |f| == 0 then [(k, v)]
    else if f[0].0 == k then GetAllPresent(f); [(k, v)] + f[1..]
    else [f[0]] + Put(f[1..], k, v)
  }

  /** Every key that occurs has a value. */
  lemma {:induction false} GetAllPresent(f: Fields)
    ensures forall i :: 0 <= i < |f| ==> Get(f, f[i].0).Some?
    decreases |f|
  {
    if |f| > 0 {
      GetAllPresent(f[1..]);
      forall i | 1 <= i < |f| ensures Get(f, f[i].0).Some? {
        assert f[i] == f[1..][i - 1];
      }
    }
  }

  /** The pairs whose key satisfies `keep`, in order. */
  function Filter(f: Fields, keep: string -> bool): (r: Fields)
    ensures forall k :: Get(r, k) == (if keep(k) then Get(f, k) else None)
    ensures forall i :: 0 <= i < |r| ==> keep(r[i].0)
  {
    if |f| == 0 then []
    else if keep(f[0].0) then [f[0]] + Filter(f[1..], keep)
    else Filter(f[1..], keep)
  }

  /** `ctx.get(key, default)` on the bound context variables. */
  function ContextValue(ctx: map<string, string>, key: string, default: string): string {
    if key in ctx then ctx[key] else default
  }

  /** `get_correlation_id()`. */
  function CorrelationId(ctx: map<string, string>): (r: string)
    ensures "correlation_id" !in ctx ==> r == DefaultCorrelationId
  {
    ContextValue(ctx, "correlation_id", DefaultCorrelationId)
  }

  // ---------------------------------------------------------------------------
  // The processor
  // ---------------------------------------------------------------------------

  /** A processed event: the standard fields, and the `extra` dictionary (absent when empty). */
  datatype LogRecord = LogRecord(fields: Fields, extra: Fields)

  /**
   * `_process_log_fields`: `event` becomes `message`, the bound context is
   * added, every non-standard key moves into `extra`, and a correlation id
   * other than the default is added to `extra`.
   */
  function ProcessLogFields(event: Fields, ctx: map<string, string>): (r: LogRecord)
    ensures Get(r.fields, "message") == Some(GetOr(event, "event", ""))
    ensures Get(r.fields, "context") == Some(ContextValue(ctx, "context", DefaultContext))
    ensures forall i :: 0 <= i < |r.fields| ==> r.fields[i].0 in StandardFields
    ensures forall i :: 0 <= i < |r.extra| ==> r.extra[i].0 !in StandardFields
    ensures CorrelationId(ctx) != DefaultCorrelationId ==> Get(r.extra, "correlation_id") == Some(CorrelationId(ctx))
  {
    var d := Renamed(event, ctx);
    assert IsStandard("message") && IsStandard("context");
    LogRecord(Filter(d, IsStandard), ExtraFields(d, CorrelationId(ctx)))
  }

  predicate IsStandard(k: string) {
    k in StandardFields
  }

  predicate IsExtra(k: string) {
    k !in StandardFields
  }

  predicate NotEvent(k: string) {
    k != "event"
  }

  /** The event with `event` renamed to `message` and the bound context added; other keys untouched. */
  function Renamed(event: Fields, ctx: map<string, string>): (d: Fields)
    ensures Get(d, "message") == Some(GetOr(event, "event", ""))
    ensures Get(d, "context") == Some(ContextValue(ctx, "context", DefaultContext))
    ensures forall k :: k != "event" && k != "message" && k != "context" ==> Get(d, k) == Get(event, k)
  {
    var kept := Filter(event, NotEvent);
    var d1 := Put(kept, "message", GetOr(event, "event", ""));
    var d := Put(d1, "context", ContextValue(ctx, "context", DefaultContext));
    assert Get(d, "message") == Get(d1, "message");
    forall k | k != "event" && k != "message" && k != "context" ensures Get(d, k) == Get(event, k) {
      assert Get(d, k) == Get(d1, k) == Get(kept, k);
      assert NotEvent(k);
    }
    d
  }

  /** The `extra` dictionary: the non-standard keys, plus the correlation id when one is bound. */
  function ExtraFields(d: Fields, correlation: string): (e: Fields)
    ensures forall i :: 0 <= i < |e| ==> IsExtra(e[i].0)
    ensures correlation != DefaultCorrelationId ==> Get(e, "correlation_id") == Some(correlation)
    ensures forall k :: k != "correlation_id" || correlation == DefaultCorrelationId ==>
              Get(e, k) == (if IsExtra(k) then Get(d, k) else None)
  {
    var extra := Filter(d, IsExtra);
    assert IsExtra("correlation_id");
    if correlation != DefaultCorrelationId then Put(extra, "correlation_id", correlation) else extra
  }

  /**
   * Nothing is lost and nothing invented: every key of the input other than
   * `event` keeps its value in exactly one of the two parts, unless the
   * processor overwrites it (`message`, `context`, and `correlation_id` when a
   * correlation id is bound); every other key is absent from both parts.
   */
  lemma ProcessLogFieldsPartition(event: Fields, ctx: map<string, string>, k: string)
    requires k !in {"event", "message", "context"}
    requires k == "correlation_id" ==> CorrelationId(ctx) == DefaultCorrelationId
    ensures var r := ProcessLogFields(event, ctx);
            && (k in StandardFields ==> Get(r.fields, k) == Get(event, k) && Get(r.extra, k).None?)
            && (k !in StandardFields ==> Get(r.extra, k) == Get(event, k) && Get(r.fields, k).None?)
  {
  }

  // ---------------------------------------------------------------------------
  // The human-readable formatter
  // ---------------------------------------------------------------------------

  /** `format_field_value`: values longer than 50 characters are cut to 47 and marked with "...". */
  function FormatFieldValue(v: string): (r: string)
    ensures |r| <= MaxValueLength
    ensures |v| <= MaxValueLength <==> r == v
    ensures |v| > MaxValueLength ==> r == v[..MaxValueLength - 3] + "..."
  {
    Ellipsize(v, MaxValueLength, MaxValueLength - 3)
  }

  /** A formatted value is left alone by a second formatting. */
  lemma FormatFieldValueIdempotent(v: string)
    ensures FormatFieldValue(FormatFieldValue(v)) == FormatFieldValue(v)
  {
  }

  /** `format_correlation_id`: empty stays empty, anything else shows its first eight characters. */
  function FormatCorrelationId(c: string): (r: string)
    ensures c == "" <==> r == ""
    ensures |r| <= 6 + CorrelationIdDisplayLength
    ensures c != "" ==> " [id:" <= r && r[|r| - 1] == ']'
    ensures c != "" ==> r[5..|r| - 1] == (if |c| <= CorrelationIdDisplayLength then c else c[..CorrelationIdDisplayLength])
  {
    if c == "" then ""
    else
      var shown := if |c| <= CorrelationIdDisplayLength then c else c[..CorrelationIdDisplayLength];
      assert (" [id:" + shown + "]")[5..|shown| + 5] == shown;
      " [id:" + shown + "]"
  }

  /** Two correlation ids display alike exactly when they agree on their first eight characters. */
  lemma FormatCorrelationIdPrefix(a: string, b: string)
    requires a != "" && b != ""
    ensures FormatCorrelationId(a) == FormatCorrelationId(b) <==>
            (if |a| <= 8 then a else a[..8]) == (if |b| <= 8 then b else b[..8])
  {
    var sa := if |a| <= 8 then a else a[..8];
    var sb := if |b| <= 8 then b else b[..8];
    if FormatCorrelationId(a) == FormatCorrelationId(b) {
      assert FormatCorrelationId(a)[5..|FormatCorrelationId(a)| - 1] == sa;
      assert FormatCorrelationId(b)[5..|FormatCorrelationId(b)| - 1] == sb;
    }
  }

  /**
   * `format_logger_name`: names outside `src` are kept; for the others every
   * "src." is removed and at most the last two dotted parts are kept.
   */
  function FormatLoggerName(name: string): (r: string)
    ensures !("src" <= name) ==> r == name
    ensures "src" <= name ==>
              var parts := Split(RemoveAll(name, "src."), '.');
              Split(r, '.') == parts[|parts| - (if |parts| >= 2 then 2 else 1)..]
  {
    if !("src" <= name) then name
    else
      var parts := Split(RemoveAll(name, "src."), '.');
      LastTwoSplit(parts);
      LastTwo(parts)
  }

  /** The last two parts joined by a dot, or the only part. */
  function LastTwo(parts: seq<string>): string
    requires |parts| >= 1
  {
    var n := |parts|;
    if n >= 2 then parts[n - 2] + "." + parts[n - 1] else parts[n - 1]
  }

  /** Splitting the last two parts at dots gives back exactly those parts, or the only one. */
  lemma LastTwoSplit(parts: seq<string>)
    requires |parts| >= 1
    requires forall i :: 0 <= i < |parts| ==> '.' !in parts[i]
    ensures Split(LastTwo(parts), '.') == parts[|parts| - (if |parts| >= 2 then 2 else 1)..]
  {
    var n := |parts|;
    var tail := parts[n - (if n >= 2 then 2 else 1)..];
    assert forall i :: 0 <= i < |tail| ==> '.' !in tail[i] by {
      forall i | 0 <= i < |tail| ensures '.' !in tail[i] {
        assert tail[i] == parts[n - |tail| + i];
      }
    }
    ShortSuffix(tail);
    assert LastTwo(tail) == LastTwo(parts);
    assert ['.'] == ".";
    SplitJoin(tail, '.');
  }

  /** Joining the parts back with dots ends in the last two parts. */
  lemma LastTwoIsSuffix(parts: seq<string>)
    requires |parts| >= 1
    ensures exists front :: Join(parts, ".") == front + LastTwo(parts)
  {
    var front := if |parts| >= 3 then Join(parts[..|parts| - 2], ".") + "." else "";
    if |parts| >= 3 {
      LongSuffix(parts);
    } else {
      ShortSuffix(parts);
    }
    assert Join(parts, ".") == front + LastTwo(parts);
  }

  lemma ShortSuffix(parts: seq<string>)
    requires 1 <= |parts| <= 2
    ensures Join(parts, ".") == LastTwo(parts)
  {
    if |parts| == 2 {
      JoinSnoc(parts, ".");
      assert parts[..1] == [parts[0]];
    }
  }

  lemma LongSuffix(parts: seq<string>)
    requires |parts| >= 3
    ensures Join(parts, ".") == (Join(parts[..|parts| - 2], ".") + ".") + LastTwo(parts)
  {
    var n := |parts|;
    var init := parts[..n - 1];
    var front := Join(parts[..n - 2], ".") + ".";
    JoinSnoc(parts, ".");
    JoinSnoc(init, ".");
    assert init[..n - 2] == parts[..n - 2];
    assert init[n - 2] == parts[n - 2];
    Reassociate(front, parts[n - 2], parts[n - 1]);
  }

  lemma Reassociate(front: string, a: string, b: string)
    ensures front + a + "." + b == front + (a + "." + b)
  {
  }

  /** With dot-free parts, the last two joined have at most one dot, between two dot-free halves. */
  lemma LastTwoShape(parts: seq<string>)
    requires |parts| >= 1
    requires forall i :: 0 <= i < |parts| ==> '.' !in parts[i]
    ensures var r := LastTwo(parts);
            '.' !in r || exists a, b :: r == a + "." + b && '.' !in a && '.' !in b
  {
    var n := |parts|;
    if n >= 2 {
      assert '.' !in parts[n - 2] && '.' !in parts[n - 1];
    }
  }

  /**
   * A shortened logger name is the last two dotted parts of the name with
   * "src." removed (or its only part), joined by a dot: it has at most one dot
   * and is a tail of the stripped name, so no part of it is made up or cut.
   */
  lemma FormatLoggerNameShape(name: string)
    requires "src" <= name
    ensures var r := FormatLoggerName(name);
            && ('.' !in r || exists a, b :: r == a + "." + b && '.' !in a && '.' !in b)
            && exists front :: RemoveAll(name, "src.") == front + r
    ensures var parts := Split(RemoveAll(name, "src."), '.');
            FormatLoggerName(name) == Join(parts[|parts| - (if |parts| >= 2 then 2 else 1)..], ".")
  {
    var stripped := RemoveAll(name, "src.");
    var parts := Split(stripped, '.');
    JoinSplit(FormatLoggerName(name), '.');
    JoinSplit(stripped, '.');
    assert ['.'] == ".";
    LastTwoIsSuffix(parts);
    LastTwoShape(parts);
  }

  /** The "key=value" entries of the extras, each value formatted, in insertion order. */
  function Pairs(extra: Fields): (r: seq<string>)
    ensures |r| == |extra|
    ensures forall i :: 0 <= i < |extra| ==> r[i] == extra[i].0 + "=" + FormatFieldValue(extra[i].1)
  {
    seq(|extra|, i requires 0 <= i < |extra| => extra[i].0 + "=" + FormatFieldValue(extra[i].1))
  }

  /** `format_extra_fields`: " [k=v, ...]" with every value formatted, or "" for no extras. */
  function FormatExtraFields(extra: Fields): (r: string)
    ensures |extra| == 0 <==> r == ""
    ensures |extra| > 0 ==> " [" <= r && r[|r| - 1] == ']'
    ensures |extra| > 0 ==> r == " [" + Join(Pairs(extra), ", ") + "]" && r[2..|r| - 1] == Join(Pairs(extra), ", ")
  {
    if |extra| == 0 then ""
    else
      var body := Join(Pairs(extra), ", ");
      assert (" [" + body + "]")[2..|body| + 2] == body;
      " [" + body + "]"
  }

  /** One extra field shows as " [k=v]". */
  lemma ExtraFieldsSingle(k: string, v: string)
    ensures FormatExtraFields([(k, v)]) == " [" + k + "=" + FormatFieldValue(v) + "]"
  {
    assert Pairs([(k, v)]) == [k + "=" + FormatFieldValue(v)];
  }

  /** Each further extra field adds ", k=v" before the closing bracket. */
  lemma ExtraFieldsSnoc(extra: Fields, k: string, v: string)
    requires |extra| > 0
    ensures var before := FormatExtraFields(extra);
            FormatExtraFields(extra + [(k, v)]) == before[..|before| - 1] + ", " + k + "=" + FormatFieldValue(v) + "]"
  {
    var ps := Pairs(extra + [(k, v)]);
    var joined := Join(Pairs(extra), ", ");
    assert ps[..|ps| - 1] == Pairs(extra);
    JoinSnoc(ps, ", ");
    assert Join(ps, ", ") == joined + ", " + (k + "=" + FormatFieldValue(v));
    assert FormatExtraFields(extra) == " [" + joined + "]";
    Rebracket(joined, k, FormatFieldValue(v));
  }

  /** Appending inside the brackets is appending after the opening part of the old text. */
  lemma Rebracket(joined: string, k: string, value: string)
    ensures var before := " [" + joined + "]";
            " [" + (joined + ", " + (k + "=" + value)) + "]" == before[..|before| - 1] + ", " + k + "=" + value + "]"
  {
    var before := " [" + joined + "]";
    assert before[..|before| - 1] == " [" + joined;
  }

  /**
   * `HumanReadableFormatter.__call__` with the already formatted time:
   * "TIME [LEVEL] logger: message [extras] [id:corr]".
   */
  function FormatLine(rec: LogRecord, timeStr: string): (r: string)
    ensures var head := timeStr + " [" + Upper(GetOr(rec.fields, "level", "info")) + "] "
                        + FormatLoggerName(GetOr(rec.fields, "logger", "")) + ": " + GetOr(rec.fields, "message", "");
            var tail := FormatExtraFields(rec.extra) + FormatCorrelationId(GetOr(rec.extra, "correlation_id", ""));
            r == head + tail && head <= r
  {
    var level := Upper(GetOr(rec.fields, "level", "info"));
    var loggerName := FormatLoggerName(GetOr(rec.fields, "logger", ""));
    var message := GetOr(rec.fields, "message", "");
    var correlation := GetOr(rec.extra, "correlation_id", "");
    var head := timeStr + " [" + level + "] " + loggerName + ": " + message;
    head + (FormatExtraFields(rec.extra) + FormatCorrelationId(correlation))
  }

  /** Each part of a formatted line reads back from its own offset. */
  lemma FormatLineParts(rec: LogRecord, timeStr: string)
    ensures var r := FormatLine(rec, timeStr);
            var level := Upper(GetOr(rec.fields, "level", "info"));
            var name := FormatLoggerName(GetOr(rec.fields, "logger", ""));
            var message := GetOr(rec.fields, "message", "");
            var tail := FormatExtraFields(rec.extra) + FormatCorrelationId(GetOr(rec.extra, "correlation_id", ""));
            var n := |timeStr| + |level| + 4;
            var m := n + |name| + 2;
            && |r| == m + |message| + |tail|
            && r[..|timeStr|] == timeStr
            && r[|timeStr|..|timeStr| + 2] == " ["
            && r[|timeStr| + 2..|timeStr| + 2 + |level|] == level
            && r[n - 2..n] == "] "
            && r[n..n + |name|] == name
            && r[m - 2..m] == ": "
            && r[m..m + |message|] == message
            && r[m + |message|..] == tail
  {
    LineParts(timeStr, Upper(GetOr(rec.fields, "level", "info")), FormatLoggerName(GetOr(rec.fields, "logger", "")),
              GetOr(rec.fields, "message", ""),
              FormatExtraFields(rec.extra) + FormatCorrelationId(GetOr(rec.extra, "correlation_id", "")));
  }

  /** Slicing the line's concatenation gives back each of its parts. */
  lemma LineParts(t: string, level: string, name: string, message: string, tail: string)
    ensures var r := (t + " [" + level + "] " + name + ": " + message) + tail;
            var n := |t| + |level| + 4;
            var m := n + |name| + 2;
            && |r| == m + |message| + |tail|
            && r[..|t|] == t
            && r[|t|..|t| + 2] == " ["
            && r[|t| + 2..|t| + 2 + |level|] == level
            && r[n - 2..n] == "] "
            && r[n..n + |name|] == name
            && r[m - 2..m] == ": "
            && r[m..m + |message|] == message
            && r[m + |message|..] == tail
  {
  }

  /**
   * A bound correlation id shows up twice in a formatted line: among the extras
   * and again as the trailing id tag.
   */
  lemma CorrelationShownTwice(event: Fields, ctx: map<string, string>, timeStr: string)
    requires CorrelationId(ctx) != DefaultCorrelationId
    ensures var rec := ProcessLogFields(event, ctx);
            && Get(rec.extra, "correlation_id") == Some(CorrelationId(ctx))
            && |rec.extra| > 0
            && exists front :: FormatLine(rec, timeStr) == front + FormatCorrelationId(CorrelationId(ctx))
  {
    var rec := ProcessLogFields(event, ctx);
    var head := timeStr + " [" + Upper(GetOr(rec.fields, "level", "info")) + "] "
                + FormatLoggerName(GetOr(rec.fields, "logger", "")) + ": " + GetOr(rec.fields, "message", "");
    assert GetOr(rec.extra, "correlation_id", "") == CorrelationId(ctx);
    var front := head + FormatExtraFields(rec.extra);
    assert FormatLine(rec, timeStr) == front + FormatCorrelationId(CorrelationId(ctx));
  }

  // ---------------------------------------------------------------------------
  // Level configuration
  // ---------------------------------------------------------------------------

  /**
   * `getattr(logging, NAME, logging.INFO)` handed to `basicConfig`: a level name
   * gives its number, an unknown name gives INFO, and the two upper-case
   * attributes of the logging module that are not levels make configuration fail.
   */
  function LevelAttribute(name: string): (r: Result<int, string>)
    ensures r.Ok? ==> r.value in {0, 10, 20, 30, 40, 50}
  {
    if name == "CRITICAL" || name == "FATAL" then Ok(50)
    else if name == "ERROR" then Ok(40)
    else if name == "WARNING" || name == "WARN" then Ok(30)
    else if name == "INFO" then Ok(20)
    else if name == "DEBUG" then Ok(10)
    else if name == "NOTSET" then Ok(0)
    else if name == "BASIC_FORMAT" || name == "_STYLES" then Err("Unknown level")
    else Ok(20)
  }

  /** The level `configure_structlog` sets from `LOGGING_LEVEL` (default "INFO"), case-insensitively. */
  function ResolveLevel(env: Option<string>): Result<int, string> {
    LevelAttribute(Upper(if env.Some? then env.value else DefaultLogLevel))
  }

  /** Unset means INFO, and the setting's case never matters. */
  lemma ResolveLevelCaseInsensitive(s: string)
    ensures ResolveLevel(None) == Ok(20)
    ensures ResolveLevel(Some(s)) == ResolveLevel(Some(Upper(s)))
  {
    UpperIdempotent(s);
    assert Upper(DefaultLogLevel) == "INFO";
  }

  /** A lower-case level name works as well as the upper-case one. */
  lemma ResolveLevelLowerCase()
    ensures ResolveLevel(Some("debug")) == Ok(10)
  {
    assert Upper("debug") == "DEBUG";
  }

  /** Naming the logging module's format-string attribute makes configuration fail. */
  lemma ResolveLevelFormatAttribute()
    ensures ResolveLevel(Some("basic_format")).Err?
  {
    assert Upper("basic_format") == "BASIC_FORMAT";
  }
}
