/**
 * The application logger (src/lib/logger.ts): a bounded in-memory buffer
 * of entries, a level filter that drops DEBUG entries unless debug logging
 * is enabled, and the queries over the buffer.
 *
 * The clock is a parameter of every write, the debug switch a parameter of
 * the constructor; console output is not modelled.
 */
module Logging {
  import opened Wrappers
  import opened JsText

  datatype Level = Debug | Info | Warn | Error

  /** A value of an entry's context object. */
  datatype Value = Text(text: string) | Number(number: int)

  /** A context object: `None` when the caller passed none. */
  type Context = Option<map<string, Value>>

  datatype Entry = Entry(level: Level, message: string, context: Context, timestamp: int)

  /** `maxLogs`: the buffer keeps only the most recent entries. */
  const MaxLogs: nat := 1000

  /** The buffer after `push` and, when it has grown past the bound, one `shift`. */
  function Pushed(logs: seq<Entry>, entry: Entry): (r: seq<Entry>)
    ensures |logs| <= MaxLogs ==> |r| <= MaxLogs
    ensures r != [] && r[|r| - 1] == entry
  {
    var grown := logs + [entry];
    if |grown| > MaxLogs then grown[1..] else grown
  }

  /**
   * Pushing onto a buffer that holds the last `MaxLogs` entries of a history
   * leaves the last `MaxLogs` entries of the longer history.
   */
  lemma PushKeepsWindow(history: seq<Entry>, entry: Entry)
    ensures Pushed(TakeLast(history, MaxLogs), entry) == TakeLast(history + [entry], MaxLogs)
  {
    var longer := history + [entry];
    if |history| >= MaxLogs {
      var w := TakeLast(history, MaxLogs);
      assert w == history[|history| - MaxLogs..];
      assert TakeLast(longer, MaxLogs) == longer[|longer| - MaxLogs..];
      assert (w + [entry])[1..] == longer[|longer| - MaxLogs..];
    } else {
      assert TakeLast(history, MaxLogs) == history;
      assert TakeLast(longer, MaxLogs) == longer;
    }
  }

  /** `logs.filter(log => log.level === level)`. */
  function OfLevel(logs: seq<Entry>, level: Level): (r: seq<Entry>)
    ensures |r| <= |logs|
    ensures forall e :: e in r <==> e in logs && e.level == level
  {
    if logs == [] then []
    else OfLevel(logs[..|logs| - 1], level) + (if logs[|logs| - 1].level == level then [logs[|logs| - 1]] else [])
  }

  /** Filtering distributes over the entries written one after another. */
  lemma {:induction false} OfLevelAppend(logs: seq<Entry>, more: seq<Entry>, level: Level)
    ensures OfLevel(logs + more, level) == OfLevel(logs, level) + OfLevel(more, level)
    decreases |more|
  {
    if more != [] {
      var init := more[..|more| - 1];
      assert (logs + more)[..|logs + more| - 1] == logs + init;
      OfLevelAppend(logs, init, level);
    } else {
      assert logs + more == logs;
    }
  }

  /** The level `logApiRequest` chooses for a response status. */
  function ApiLevel(statusCode: int): (r: Level)
    ensures r == Warn <==> statusCode >= 400
    ensures r == Info <==> statusCode < 400
  {
    if statusCode >= 400 then Warn else Info
  }

  /** Two digits read back as their value. */
  lemma TwoDigitsValue(tens: nat, units: nat)
    requires tens < 10 && units < 10
    ensures DigitsValue([DigitChar(tens), DigitChar(units)]) == 10 * tens + units
  {
    var f := [DigitChar(tens), DigitChar(units)];
    NatToStringRoundTrip(tens);
    NatToStringRoundTrip(units);
    assert f[..1] == NatToString(tens);
    assert [f[1]] == NatToString(units);
  }

  /** Whole milliseconds, tenths and hundredths make up the duration. */
  lemma HundredthsSplit(h: nat)
    ensures h / 100 * 100 + 10 * (h / 10 % 10) + h % 10 == h
  {
    assert h / 10 == h / 100 * 10 + h / 10 % 10;
  }

  /** Where the parts of the duration text sit. */
  lemma DurationLayout(whole: string, fraction: string)
    requires |fraction| == 2
    ensures var r := whole + "." + fraction + "ms";
      |r| == |whole| + 5 && r[..|whole|] == whole && r[|whole|] == '.' &&
      r[|whole| + 1..|whole| + 3] == fraction && r[|whole| + 3..] == "ms"
  {
  }

  /**
   * `duration.toFixed(2) + 'ms'` for a duration given in hundredths of a
   * millisecond: the whole milliseconds without leading zeros, a point, two
   * digits of hundredths, then the unit.
   */
  function DurationText(hundredths: nat): (r: string)
    ensures |r| >= 6 && r[|r| - 2..] == "ms" && r[|r| - 5] == '.'
    ensures r[..|r| - 5] == NatToString(hundredths / 100)
    ensures forall k :: |r| - 4 <= k < |r| - 2 ==> '0' <= r[k] <= '9'
    ensures DigitsValue(r[..|r| - 5]) * 100 + DigitsValue(r[|r| - 4..|r| - 2]) == hundredths
  {
    var whole := NatToString(hundredths / 100);
    var fraction := [DigitChar(hundredths / 10 % 10), DigitChar(hundredths % 10)];
    DurationLayout(whole, fraction);
    NatToStringRoundTrip(hundredths / 100);
    TwoDigitsValue(hundredths / 10 % 10, hundredths % 10);
    HundredthsSplit(hundredths);
    whole + "." + fraction + "ms"
  }

  /** `` `API ${method} ${path} - ${statusCode}` ``: the status after the fixed head reads back as the status. */
  function ApiMessage(verb: string, path: string, statusCode: int): (r: string)
    ensures StartsWith(r, "API " + verb + " " + path + " - ")
    ensures ReadsAsInt(r[|"API " + verb + " " + path + " - "|..], statusCode)
  {
    var head := "API " + verb + " " + path + " - ";
    var r := head + IntToString(statusCode);
    assert r[..|head|] == head && r[|head|..] == IntToString(statusCode);
    IntToStringRoundTrip(statusCode);
    r
  }

  /**
   * The context of an API request entry: the request's own keys, then the
   * caller's context spread over them, so a caller's key wins.
   */
  function ApiContext(verb: string, path: string, statusCode: int, hundredths: nat, context: Context)
    : (r: map<string, Value>)
    ensures r.Keys == {"method", "path", "statusCode", "duration"} + context.GetOr(map[]).Keys
    ensures forall key :: context.Some? && key in context.value ==> key in r && r[key] == context.value[key]
    ensures context.None? || "method" !in context.value ==> r["method"] == Text(verb)
    ensures context.None? || "path" !in context.value ==> r["path"] == Text(path)
    ensures context.None? || "statusCode" !in context.value ==> r["statusCode"] == Number(statusCode)
    ensures context.None? || "duration" !in context.value ==> r["duration"] == Text(DurationText(hundredths))
  {
    map["method" := Text(verb), "path" := Text(path), "statusCode" := Number(statusCode),
        "duration" := Text(DurationText(hundredths))] + context.GetOr(map[])
  }

  class Logger {
    /** The buffer. */
    var logs: seq<Entry>
    /** Every entry written since the buffer was last cleared. */
    ghost var history: seq<Entry>
    /** `env.enableDebugLogging`. */
    const debugEnabled: bool

    /** The buffer is the last `MaxLogs` entries written since the last clear. */
    ghost predicate Valid()
      reads this
    {
      logs == TakeLast(history, MaxLogs)
    }

    constructor(debugEnabled: bool)
      ensures Valid() && logs == [] && history == []
      ensures this.debugEnabled == debugEnabled
    {
      logs := [];
      history := [];
      this.debugEnabled := debugEnabled;
    }

    /** `shouldLog`: only DEBUG entries are ever refused. */
    predicate ShouldLog(level: Level)
    {
      !(!debugEnabled && level == Debug)
    }

    /** What the filter decides: DEBUG is kept exactly when debug logging is on, every other level always. */
    lemma ShouldLogCases(level: Level)
      ensures level == Debug ==> (ShouldLog(level) <==> debugEnabled)
      ensures level != Debug ==> ShouldLog(level)
    {
    }

    /** `writeLog`: push, then drop the oldest entry when the buffer has grown past the bound. */
    method WriteLog(entry: Entry)
      requires Valid()
      modifies this
      ensures Valid() && history == old(history) + [entry]
      ensures |logs| <= MaxLogs && logs[|logs| - 1] == entry
      ensures |old(logs)| < MaxLogs ==> logs == old(logs) + [entry]
      ensures |old(logs)| == MaxLogs ==> logs == old(logs)[1..] + [entry]
    {
      var before := logs;
      PushKeepsWindow(history, entry);
      logs := logs + [entry];
      if |logs| > MaxLogs {
        assert logs[1..] == before[1..] + [entry];
        logs := logs[1..];
      }
      history := history + [entry];
      assert logs == Pushed(before, entry);
    }

    /** `log(level, message, context)`, and `debug`, `info` and `warn`, which are it at their level. */
    method Log(level: Level, message: string, context: Context, now: int)
      requires Valid()
      modifies this
      ensures Valid()
      ensures ShouldLog(level) ==> history == old(history) + [Entry(level, message, context, now)]
      ensures !ShouldLog(level) ==> logs == old(logs) && history == old(history)
    {
      if ShouldLog(level) {
        WriteLog(Entry(level, message, context, now));
      }
    }

    /** `error`: written without consulting the filter. */
    method LogError(message: string, context: Context, now: int)
      requires Valid()
      modifies this
      ensures Valid() && history == old(history) + [Entry(Error, message, context, now)]
    {
      WriteLog(Entry(Error, message, context, now));
    }

    /** `logApiRequest`: WARN for a failed request, INFO otherwise. */
    method LogApiRequest(verb: string, path: string, statusCode: int, hundredths: nat, context: Context, now: int)
      requires Valid()
      modifies this
      ensures Valid()
      ensures history == old(history) +
        [Entry(ApiLevel(statusCode), ApiMessage(verb, path, statusCode),
               Some(ApiContext(verb, path, statusCode, hundredths, context)), now)]
    {
      Log(ApiLevel(statusCode), ApiMessage(verb, path, statusCode),
          Some(ApiContext(verb, path, statusCode, hundredths, context)), now);
    }

    /** `logUserAction`. */
    method LogUserAction(action: string, context: Context, now: int)
      requires Valid()
      modifies this
      ensures Valid() && history == old(history) + [Entry(Info, "User action: " + action, context, now)]
    {
      Log(Info, "User action: " + action, context, now);
    }

    /** `getRecentLogs(limit = 100)`: the most recent `limit` entries, oldest first. */
    method GetRecentLogs(limit: Option<int>) returns (r: seq<Entry>)
      ensures r == TakeLast(logs, limit.GetOr(100))
      ensures limit.None? ==> |r| == if |logs| < 100 then |logs| else 100
    {
      r := TakeLast(logs, limit.GetOr(100));
    }

    /** `getLogsByLevel(level, limit = 100)`: the most recent `limit` entries of that level, oldest first. */
    method GetLogsByLevel(level: Level, limit: Option<int>) returns (r: seq<Entry>)
      ensures r == TakeLast(OfLevel(logs, level), limit.GetOr(100))
      ensures forall e :: e in r ==> e in logs && e.level == level
    {
      r := TakeLast(OfLevel(logs, level), limit.GetOr(100));
    }

    /** `clearLogs`. */
    method ClearLogs()
      modifies this
      ensures Valid() && logs == [] && history == []
    {
      logs := [];
      history := [];
    }
  }
}
