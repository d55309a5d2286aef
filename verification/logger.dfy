/** `MessageLogger`: one line per event in a dated file under the log
    directory. The file is abstracted as the sequence of entries this logger
    appended; the clock is a timestamp parameter and the outcome of each
    file write is a boolean parameter. */
module Logger {
  import opened Wrappers
  import opened Strings
  import opened Seqs

  const DefaultLogDir := "./logs"

  datatype MessageLogger = MessageLogger(logDir: string, logFile: string, enabled: bool, lines: seq<string>)

  /** The value thrown at a failing call site: its `message` ("" when it has
      none or an empty one) and its `String(error)` rendering. */
  datatype ErrorValue = ErrorValue(message: string, shown: string)

  /** One call of a logging method, with its arguments. */
  datatype LogEvent =
    | TextSent(from: string, to: string, message: string, success: bool)
    | MediaSent(from: string, to: string, mediaType: string, success: bool, details: string)
    | SequenceStarted(from: string, to: string, sequenceType: string)
    | CycleStarted(instanceCount: nat)
    | CycleEnded(messagesSent: nat)
    | Failed(context: string, error: ErrorValue)

  // ---------------------------------------------------------------------
  // File naming

  function LogFileName(date: string): string
  {
    "messages-" + date + ".log"
  }

  /** A directory entry that `listLogFiles` keeps. */
  predicate IsLogFileName(name: string)
  {
    IsPrefix("messages-", name) && IsSuffix(".log", name)
  }

  /** The date part of a log file name. */
  function DateOf(name: string): string
    requires IsLogFileName(name) && |name| >= 13
  {
    name[9..|name| - 4]
  }

  /** The daily file name is recognised by the listing filter and gives its
      date back. */
  lemma LogFileNameRoundTrip(date: string)
    ensures IsLogFileName(LogFileName(date)) && |LogFileName(date)| >= 13
    ensures DateOf(LogFileName(date)) == date
  {
    var name := LogFileName(date);
    assert name[..9] == "messages-";
    assert name[|name| - 4..] == ".log";
    assert name[9..|name| - 4] == date;
  }

  /** A fresh logger is enabled, has written nothing, and writes to the file
      for `today` inside `logDir`. */
  function NewLogger(logDir: string, today: string): (l: MessageLogger)
    ensures l.enabled && l.lines == [] && l.logDir == logDir
    ensures IsPrefix(logDir + "/", l.logFile)
    ensures |l.logFile| == |logDir| + 14 + |today|
    ensures IsLogFileName(l.logFile[|logDir| + 1..]) && DateOf(l.logFile[|logDir| + 1..]) == today
  {
    var l := MessageLogger(logDir, logDir + "/" + LogFileName(today), true, []);
    assert l.logFile[..|logDir| + 1] == logDir + "/";
    assert l.logFile[|logDir| + 1..] == LogFileName(today);
    LogFileNameRoundTrip(today);
    l
  }

  function SetEnabled(l: MessageLogger, enabled: bool): (l': MessageLogger)
    ensures l'.enabled == enabled
    ensures l'.lines == l.lines && l'.logFile == l.logFile && l'.logDir == l.logDir
  {
    l.(enabled := enabled)
  }

  // ---------------------------------------------------------------------
  // Entry formatting

  function Status(success: bool): string
  {
    if success then "SUCESSO" else "FALHA"
  }

  /** `error?.message || String(error)`. */
  function ErrorText(e: ErrorValue): (t: string)
    ensures e.message != "" ==> t == e.message
    ensures e.message == "" ==> t == e.shown
  {
    if e.message != "" then e.message else e.shown
  }

  function DigitChar(d: nat): (c: char)
    requires d < 10
    ensures '0' <= c <= '9' && c as int - '0' as int == d
  {
    (d + '0' as int) as char
  }

  /** A number's decimal text, as template interpolation writes a
      non-negative integer. */
  function NatText(n: nat): (s: string)
    ensures |s| > 0 && forall i | 0 <= i < |s| :: '0' <= s[i] <= '9'
    decreases n
  {
    if n < 10 then [DigitChar(n)] else NatText(n / 10) + [DigitChar(n % 10)]
  }

  /** The value of a string of decimal digits. */
  function DigitsValue(s: string): nat
    requires forall i | 0 <= i < |s| :: '0' <= s[i] <= '9'
  {
    if |s| == 0 then 0
    else DigitsValue(s[..|s| - 1]) * 10 + (s[|s| - 1] as int - '0' as int)
  }

  /** The decimal text reads back as the number. */
  lemma {:induction false} NatTextRoundTrip(n: nat)
    ensures DigitsValue(NatText(n)) == n
    decreases n
  {
    if n >= 10 {
      var s := NatText(n);
      assert s[..|s| - 1] == NatText(n / 10);
      NatTextRoundTrip(n / 10);
    }
  }

  /** The entry shape shared by every method: "[timestamp] [TAG]" and the
      rest. */
  function Line(ts: string, tag: string, body: string): string
  {
    "[" + (ts + ("]" + (" [" + (tag + ("]" + body)))))
  }

  /** What each logging method writes after its tag. */
  function Body(ev: LogEvent): string
  {
    match ev
    case TextSent(from, to, message, success) =>
      " [" + Status(success) + "] De: " + from + " Para: " + to + " | Mensagem: " + message
    case MediaSent(from, to, mediaType, success, details) =>
      " [" + Status(success) + "] De: " + from + " Para: " + to + (if details != "" then " | " + details else "")
    case SequenceStarted(from, to, sequenceType) =>
      " Iniciando sequência " + sequenceType + " de " + from + " para " + to
    case CycleStarted(count) =>
      " Iniciando ciclo com " + NatText(count) + " instâncias conectadas"
    case CycleEnded(sent) =>
      " Ciclo concluído com " + NatText(sent) + " mensagens enviadas"
    case Failed(context, error) =>
      " [" + context + "] " + ErrorText(error)
  }

  /** The tag each event is filed under. */
  function Tag(ev: LogEvent): string
  {
    match ev
    case TextSent(_, _, _, _) => "TEXTO"
    case MediaSent(_, _, mediaType, _, _) => ToUpper(mediaType)
    case SequenceStarted(_, _, _) => "SEQUÊNCIA"
    case CycleStarted(_) => "CICLO"
    case CycleEnded(_) => "CICLO"
    case Failed(_, _) => "ERRO"
  }

  /** The entry each logging method builds. */
  function Render(ts: string, ev: LogEvent): string
  {
    Line(ts, Tag(ev), Body(ev))
  }

  /** An entry split back into timestamp, tag and the rest. */
  datatype Parsed = Parsed(ts: string, tag: string, body: string)

  /** The text up to the first ']' and the text after it. */
  function TakeBracketed(s: string): Option<(string, string)>
  {
    match IndexOf(s, ']')
    case None => None
    case Some(i) => Some((s[..i], s[i + 1..]))
  }

  function ParseLine(line: string): Option<Parsed>
  {
    if |line| == 0 || line[0] != '[' then None
    else
      match TakeBracketed(line[1..])
      case None => None
      case Some((ts, after)) =>
        if !IsPrefix(" [", after) then None
        else
          match TakeBracketed(after[2..])
          case None => None
          case Some((tag, body)) => Some(Parsed(ts, tag, body))
  }

  /** Reading text + "]" + rest up to the first ']' gives back text and
      rest, when text holds none. */
  lemma Bracketed(text: string, rest: string)
    requires ']' !in text
    ensures TakeBracketed(text + ("]" + rest)) == Some((text, rest))
  {
    var s := text + ("]" + rest);
    assert s == text + [']'] + rest;
    IndexOfAfter(text, ']', rest);
    assert s[..|text|] == text;
    assert s[|text| + 1..] == rest;
  }

  /** An entry reads back as its parts when neither the timestamp nor the tag
      holds a ']'. */
  lemma LineRoundTrip(ts: string, tag: string, body: string)
    requires ']' !in ts && ']' !in tag
    ensures ParseLine(Line(ts, tag, body)) == Some(Parsed(ts, tag, body))
  {
    var inner := tag + ("]" + body);
    var after := " [" + inner;
    var outer := ts + ("]" + after);
    assert ("[" + outer)[1..] == outer;
    Bracketed(ts, after);
    assert after[..2] == " [" && after[2..] == inner;
    Bracketed(tag, body);
  }

  /** Every entry reads back as its timestamp, its event's tag and the rest
      of the text. */
  lemma RenderParses(ts: string, ev: LogEvent)
    requires ']' !in ts
    requires ev.MediaSent? ==> ']' !in ev.mediaType
    ensures ParseLine(Render(ts, ev)) == Some(Parsed(ts, Tag(ev), Body(ev)))
  {
    if ev.MediaSent? {
      assert forall i | 0 <= i < |ev.mediaType| :: ToUpper(ev.mediaType)[i] != ']';
    }
    LineRoundTrip(ts, Tag(ev), Body(ev));
  }

  /** A text entry's body opens with [SUCESSO] exactly when the send
      succeeded and with [FALHA] exactly when it failed, and ends with the
      message. */
  lemma TextEntryStatus(from: string, to: string, message: string, success: bool)
    ensures var body := Body(TextSent(from, to, message, success));
      && (IsPrefix(" [SUCESSO]", body) <==> success)
      && (IsPrefix(" [FALHA]", body) <==> !success)
      && IsSuffix(" | Mensagem: " + message, body)
  {
    var body := Body(TextSent(from, to, message, success));
    var tail := " | Mensagem: " + message;
    assert body[|body| - |tail|..] == tail;
    assert body[2] == Status(success)[0];
    if success {
      assert body[..10] == " [SUCESSO]";
    } else {
      assert body[..8] == " [FALHA]";
    }
  }

  /** A media entry's body ends in " | " and the details exactly when there
      are details, and with the recipient otherwise. */
  lemma MediaEntryDetails(from: string, to: string, mediaType: string, success: bool, details: string)
    ensures var body := Body(MediaSent(from, to, mediaType, success, details));
      (details != "" ==> IsSuffix(" | " + details, body))
      && (details == "" ==> IsSuffix(" Para: " + to, body))
  {
    var body := Body(MediaSent(from, to, mediaType, success, details));
    if details != "" {
      assert body[|body| - |" | " + details|..] == " | " + details;
    } else {
      assert body[|body| - |" Para: " + to|..] == " Para: " + to;
    }
  }

  /** An error entry's body ends with the error's message when it has one
      and with its string rendering otherwise. */
  lemma ErrorEntryText(context: string, error: ErrorValue)
    ensures var body := Body(Failed(context, error));
      (error.message != "" ==> IsSuffix("] " + error.message, body))
      && (error.message == "" ==> IsSuffix("] " + error.shown, body))
  {
    var body := Body(Failed(context, error));
    var tail := "] " + ErrorText(error);
    assert body[|body| - |tail|..] == tail;
  }

  // ---------------------------------------------------------------------
  // Appending

  /** A logging call: nothing when disabled; otherwise the entry is appended,
      and a failed write is swallowed, leaving the file as it was. */
  function Log(l: MessageLogger, ts: string, ev: LogEvent, writeOk: bool): (l': MessageLogger)
    ensures l'.enabled == l.enabled && l'.logFile == l.logFile && l'.logDir == l.logDir
    ensures !l.enabled || !writeOk ==> l'.lines == l.lines
    ensures l.enabled && writeOk ==> |l'.lines| == |l.lines| + 1 && l'.lines[..|l.lines|] == l.lines
                                     && l'.lines[|l.lines|] == Render(ts, ev)
  {
    if !l.enabled || !writeOk then l
    else l.(lines := l.lines + [Render(ts, ev)])
  }

  /** A run of logging calls on a disabled logger writes nothing. */
  function LogAll(l: MessageLogger, calls: seq<(string, LogEvent, bool)>): MessageLogger
    decreases |calls|
  {
    if |calls| == 0 then l else LogAll(Log(l, calls[0].0, calls[0].1, calls[0].2), calls[1..])
  }

  lemma {:induction false} DisabledWritesNothing(l: MessageLogger, calls: seq<(string, LogEvent, bool)>)
    requires !l.enabled
    ensures LogAll(l, calls) == l
  {
    if |calls| > 0 {
      DisabledWritesNothing(Log(l, calls[0].0, calls[0].1, calls[0].2), calls[1..]);
    }
  }

  /** The file's text: every entry followed by one '\n'. */
  function FileText(lines: seq<string>): string
  {
    if |lines| == 0 then "" else lines[0] + "\n" + FileText(lines[1..])
  }

  lemma {:induction false} FileTextAppend(lines: seq<string>, entry: string)
    ensures FileText(lines + [entry]) == FileText(lines) + entry + "\n"
  {
    if |lines| > 0 {
      assert (lines + [entry])[1..] == lines[1..] + [entry];
      FileTextAppend(lines[1..], entry);
    }
  }

  /** An enabled call with a successful write adds exactly its entry and one
      '\n' after the text already in the file. */
  lemma LogAppendsOneLine(l: MessageLogger, ts: string, ev: LogEvent)
    requires l.enabled
    ensures FileText(Log(l, ts, ev, true).lines) == FileText(l.lines) + Render(ts, ev) + "\n"
  {
    FileTextAppend(l.lines, Render(ts, ev));
  }

  /** Splitting text at each '\n'. */
  function SplitLines(s: string): seq<string>
    decreases |s|
  {
    match IndexOf(s, '\n')
    case None => if s == "" then [] else [s]
    case Some(i) => [s[..i]] + SplitLines(s[i + 1..])
  }

  /** The file splits back into the entries written, as long as no entry
      holds a line break. */
  lemma {:induction false} FileTextSplits(lines: seq<string>)
    requires forall i | 0 <= i < |lines| :: '\n' !in lines[i]
    ensures SplitLines(FileText(lines)) == lines
  {
    if |lines| > 0 {
      var rest := FileText(lines[1..]);
      var s := FileText(lines);
      assert s == lines[0] + ['\n'] + rest;
      IndexOfAfter(lines[0], '\n', rest);
      assert s[..|lines[0]|] == lines[0];
      assert s[|lines[0]| + 1..] == rest;
      FileTextSplits(lines[1..]);
    }
  }

  // ---------------------------------------------------------------------
  // Listing

  /** `listLogFiles`: the directory's names that look like log files, in
      directory order; `None` stands for a missing or unreadable
      directory. */
  function ListLogFiles(dir: Option<seq<string>>): (names: seq<string>)
    ensures dir.None? ==> names == []
    ensures dir.Some? ==> IsSubsequence(names, dir.value)
    ensures dir.Some? ==> forall n :: n in names <==> n in dir.value && IsLogFileName(n)
  {
    match dir
    case None => []
    case Some(entries) => Filter(entries, IsLogFileName)
  }

  /** Every daily file the logger creates shows up in the listing. */
  lemma OwnFileListed(entries: seq<string>, date: string)
    requires LogFileName(date) in entries
    ensures LogFileName(date) in ListLogFiles(Some(entries))
  {
    LogFileNameRoundTrip(date);
  }
}
