/** The extension's logger: each message element trimmed of spaces and line
    breaks, the blank ones dropped, the rest joined with newlines and written
    to the extension's output pane, with or without the title prefix. The
    pane is created lazily, only while there is none. The Visual Studio
    output window is replaced by what its CreatePane/GetPane calls return,
    handed to each call; the text written and the activations are recorded. */
module Logging {
  import opened Common

  /** Environment.NewLine on Windows, where the host runs. */
  const NewLine := "\r\n"

  /** The elements of a message after ToString: None for a null element or a
      null ToString result. */
  type MessageElement = Option<string>

  /** Whether an element, after ToString and the trim, is the given line. */
  predicate TrimsTo(e: MessageElement, line: string)
  {
    e.Some? && Trim(e.value, IsSpaceOrLineBreak) == line
  }

  /** What one element contributes: its trimmed text, unless that is blank. */
  function ElementLine(e: MessageElement): (r: seq<string>)
    ensures |r| <= 1
  {
    var trimmed := if e.Some? then Some(Trim(e.value, IsSpaceOrLineBreak)) else None;
    if IsNullOrWhiteSpace(trimmed) then [] else [trimmed.value]
  }

  /** An element contributes a line exactly when it trims to that line and
      the line is not blank. */
  lemma ElementLineMeaning(e: MessageElement, line: string)
    ensures line in ElementLine(e) <==> TrimsTo(e, line) && !IsNullOrWhiteSpace(Some(line))
  {
  }

  /** The concatenation of what f gives for each element, in order. */
  function FlatMap<T, U>(xs: seq<T>, f: T -> seq<U>): (r: seq<U>)
  {
    if |xs| == 0 then [] else FlatMap(xs[..|xs| - 1], f) + f(xs[|xs| - 1])
  }

  /** An item of FlatMap comes from some element, and every item of every
      element is there. */
  lemma {:induction false} FlatMapMembers<T, U>(xs: seq<T>, f: T -> seq<U>, u: U)
    ensures u in FlatMap(xs, f) <==> exists i :: 0 <= i < |xs| && u in f(xs[i])
    decreases |xs|
  {
    if |xs| > 0 {
      var n := |xs| - 1;
      var init := xs[..n];
      FlatMapMembers(init, f, u);
      if exists i :: 0 <= i < |init| && u in f(init[i]) {
        var i :| 0 <= i < |init| && u in f(init[i]);
        assert xs[i] == init[i];
      }
      if exists i :: 0 <= i < n && u in f(xs[i]) {
        var i :| 0 <= i < n && u in f(xs[i]);
        assert init[i] == xs[i];
      }
    }
  }

  /** FlatMap keeps order: the items of a concatenation are those of its
      first part followed by those of its second. */
  lemma {:induction false} FlatMapAppend<T, U>(xs: seq<T>, ys: seq<T>, f: T -> seq<U>)
    ensures FlatMap(xs + ys, f) == FlatMap(xs, f) + FlatMap(ys, f)
    decreases |ys|
  {
    if |ys| > 0 {
      var m := |ys| - 1;
      FlatMapAppend(xs, ys[..m], f);
      assert (xs + ys)[..|xs + ys| - 1] == xs + ys[..m];
    } else {
      assert xs + ys == xs;
    }
  }

  /** The elements that survive x?.ToString()?.Trim(' ', '\r', '\n') and the
      IsNullOrWhiteSpace filter, trimmed, in order. */
  function MessageLines(message: seq<MessageElement>): seq<string>
  {
    FlatMap(message, ElementLine)
  }

  /** A line is logged exactly when it is the trimmed form of some element
      and is not blank after trimming. */
  lemma MessageLinesMembers(message: seq<MessageElement>, line: string)
    ensures line in MessageLines(message) <==>
      !IsNullOrWhiteSpace(Some(line)) && exists i :: 0 <= i < |message| && TrimsTo(message[i], line)
  {
    FlatMapMembers(message, ElementLine, line);
    if line in MessageLines(message) {
      var i :| 0 <= i < |message| && line in ElementLine(message[i]);
      ElementLineMeaning(message[i], line);
    }
    if !IsNullOrWhiteSpace(Some(line)) && exists i :: 0 <= i < |message| && TrimsTo(message[i], line) {
      var i :| 0 <= i < |message| && TrimsTo(message[i], line);
      ElementLineMeaning(message[i], line);
    }
  }

  /** A message's lines are those of its first elements followed by those of
      the rest: logging keeps the order of the elements. */
  lemma MessageLinesAppend(first: seq<MessageElement>, rest: seq<MessageElement>)
    ensures MessageLines(first + rest) == MessageLines(first) + MessageLines(rest)
  {
    FlatMapAppend(first, rest, ElementLine);
  }

  /** A non-blank element with no leading or trailing space or line break is
      logged as it is. */
  lemma PlainElementKept(s: string)
    requires !IsNullOrWhiteSpace(Some(s))
    requires |s| > 0 && !IsSpaceOrLineBreak(s[0]) && !IsSpaceOrLineBreak(s[|s| - 1])
    ensures MessageLines([Some(s)]) == [s]
  {
    assert TrimStart(s, IsSpaceOrLineBreak) == s;
    assert TrimEnd(s, IsSpaceOrLineBreak) == s;
    assert [Some(s)][..0] == [];
    assert ElementLine(Some(s)) == [s];
    assert FlatMap([Some(s)], ElementLine) == FlatMap([], ElementLine) + ElementLine(Some(s));
  }

  /** A message whose elements are all null or blank writes nothing. */
  lemma {:induction false} BlankMessageHasNoLines(message: seq<MessageElement>)
    requires forall i :: 0 <= i < |message| ==> message[i].None? || IsNullOrWhiteSpace(message[i])
    ensures MessageLines(message) == []
    decreases |message|
  {
    if |message| > 0 {
      var n := |message| - 1;
      BlankMessageHasNoLines(message[..n]);
      if message[n].Some? {
        TrimOfBlankIsBlank(message[n].value);
      }
    }
  }

  /** Trimming spaces and line breaks off a blank string leaves it blank. */
  lemma TrimOfBlankIsBlank(s: string)
    requires IsNullOrWhiteSpace(Some(s))
    ensures IsNullOrWhiteSpace(Some(Trim(s, IsSpaceOrLineBreak)))
  {
    var t := Trim(s, IsSpaceOrLineBreak);
    var u := TrimStart(s, IsSpaceOrLineBreak);
    assert t == u[..|t|];
    assert u == s[|s| - |u|..];
    forall k | 0 <= k < |t| ensures IsWhiteSpace(t[k]) {
      assert t[k] == s[|s| - |u| + k];
    }
  }

  /** The text written for the joined lines: with the title, on a line of its
      own after a leading newline; without, the lines alone; either way
      followed by a newline. */
  function FormatLog(lines: seq<string>, withTitle: bool, vsixName: string): string
  {
    var logs := Join(lines, NewLine);
    if withTitle then NewLine + vsixName + " : " + logs + NewLine else logs + NewLine
  }

  /** The title format is the plain format preceded by the newline, the
      extension name and " : ". */
  lemma TitleFormatExtendsPlain(lines: seq<string>, vsixName: string)
    ensures FormatLog(lines, true, vsixName) == NewLine + vsixName + " : " + FormatLog(lines, false, vsixName)
    ensures EndsWith(FormatLog(lines, true, vsixName), NewLine) && EndsWith(FormatLog(lines, false, vsixName), NewLine)
    ensures StartsWith(FormatLog(lines, true, vsixName), NewLine + vsixName + " : ")
  {
    var logs := Join(lines, NewLine);
    assert NewLine + vsixName + " : " + logs + NewLine == (NewLine + vsixName + " : ") + (logs + NewLine);
    var t := FormatLog(lines, true, vsixName);
    assert t[|t| - 2..] == NewLine;
    assert t[..|NewLine + vsixName + " : "|] == NewLine + vsixName + " : ";
  }

  /** One OutputStringThreadSafe call on a pane. */
  datatype PaneWrite = PaneWrite(pane: nat, text: string)

  /** Holds Logger's static staticLogger field. */
  class StaticLogger {
    var staticLogger: Logger?

    constructor()
      ensures staticLogger == null
    {
      staticLogger := null;
    }

    /** The static Log(params string[]): the ILogger overload of the most
      recently constructed logger; with none constructed it raises a
      NullReferenceException, reported as true. */
    method Log(message: Option<seq<MessageElement>>, createdPane: Option<nat>) returns (raised: bool)
      modifies staticLogger
      ensures raised <==> staticLogger == null
      ensures staticLogger != null ==> staticLogger.Logged(old(staticLogger.pane), old(staticLogger.paneCreations),
                                                           old(staticLogger.written), message, true, createdPane)
      ensures staticLogger != null ==> staticLogger.activated == old(staticLogger.activated)
      ensures staticLogger != null && old(staticLogger.Valid()) ==> staticLogger.Valid()
    {
      if staticLogger == null {
        return true;
      }
      staticLogger.LogImpl(message, true, createdPane);
      raised := false;
    }
  }

  class Logger {
    /** The pane, once created; None while _pane is null. */
    var pane: Option<nat>
    /** How many times SetPane has run. */
    var paneCreations: nat
    /** What was written to panes, in order. */
    var written: seq<PaneWrite>
    /** The panes activated by ShowAsync, in order. */
    var activated: seq<nat>
    /** Vsix.Name, the extension's display name. */
    const vsixName: string

    /** The constructor: no pane yet, and the logger becomes the static one. */
    constructor(vsixName: string, statics: StaticLogger)
      modifies statics
      ensures this.vsixName == vsixName
      ensures pane == None && paneCreations == 0 && written == [] && activated == []
      ensures statics.staticLogger == this
      ensures Valid()
    {
      this.vsixName := vsixName;
      pane := None;
      paneCreations := 0;
      written := [];
      activated := [];
      new;
      statics.staticLogger := this;
    }

    /** A pane exists only after it was created, and every write and every
      activation went to that one pane: once created it is never replaced,
      and nothing is written or shown while there is none. */
    predicate Valid()
      reads this
    {
      && (pane.Some? ==> paneCreations > 0)
      && (pane.None? ==> written == [] && activated == [])
      && (forall k :: 0 <= k < |written| ==> pane == Some(written[k].pane))
      && (forall k :: 0 <= k < |activated| ==> pane == Some(activated[k]))
    }

    /** The state after LogImpl from the given state: nothing when no line
      survives; otherwise the pane created if there is none, and the text
      written when there then is a pane. */
    predicate Logged(pane0: Option<nat>, creations0: nat, written0: seq<PaneWrite>,
                     message: Option<seq<MessageElement>>, withTitle: bool, createdPane: Option<nat>)
      reads this
    {
      var lines := if message.Some? then MessageLines(message.value) else [];
      if |lines| == 0 then pane == pane0 && paneCreations == creations0 && written == written0
      else
        && pane == (if pane0.None? then createdPane else pane0)
        && paneCreations == (if pane0.None? then creations0 + 1 else creations0)
        && written == written0 + (if pane.Some? then [PaneWrite(pane.value, FormatLog(lines, withTitle, vsixName))] else [])
    }

    /** SetPane: CreatePane's result, which may be null, becomes the pane. */
    method SetPane(createdPane: Option<nat>)
      modifies this
      ensures pane == createdPane && paneCreations == old(paneCreations) + 1
      ensures written == old(written) && activated == old(activated)
    {
      pane := createdPane;
      paneCreations := paneCreations + 1;
    }

    /** LogImpl. A null message array makes the List constructor raise, and
      the exception is swallowed: nothing is written. createdPane is what
      CreatePane returns should the pane be created. */
    method LogImpl(message: Option<seq<MessageElement>>, withTitle: bool, createdPane: Option<nat>)
      modifies this
      ensures Logged(old(pane), old(paneCreations), old(written), message, withTitle, createdPane)
      ensures activated == old(activated)
      ensures old(Valid()) ==> Valid()
    {
      if message.None? {
        return;
      }
      var messageList := MessageLines(message.value);
      if |messageList| == 0 {
        return;
      }
      if pane.None? {
        SetPane(createdPane);
      }
      if pane.None? {
        return;
      }
      written := written + [PaneWrite(pane.value, FormatLog(messageList, withTitle, vsixName))];
    }

    /** The Log overloads (params object[], params string[]) always use the
      title format. */
    method Log(message: Option<seq<MessageElement>>, createdPane: Option<nat>)
      modifies this
      ensures Logged(old(pane), old(paneCreations), old(written), message, true, createdPane)
      ensures activated == old(activated)
      ensures old(Valid()) ==> Valid()
    {
      LogImpl(message, true, createdPane);
    }

    /** The LogWithoutTitle overloads never do. */
    method LogWithoutTitle(message: Option<seq<MessageElement>>, createdPane: Option<nat>)
      modifies this
      ensures Logged(old(pane), old(paneCreations), old(written), message, false, createdPane)
      ensures activated == old(activated)
      ensures old(Valid()) ==> Valid()
    {
      LogImpl(message, false, createdPane);
    }

    /** The IEnumerable overloads: ToArray on a null sequence raises before
      LogImpl's try block, so the exception reaches the caller (true) and
      nothing changes. */
    method LogEnumerable(message: Option<seq<MessageElement>>, withTitle: bool, createdPane: Option<nat>)
      returns (raised: bool)
      modifies this
      ensures raised <==> message.None?
      ensures Logged(old(pane), old(paneCreations), old(written), message, withTitle, createdPane)
      ensures activated == old(activated)
      ensures old(Valid()) ==> Valid()
    {
      if message.None? {
        return true;
      }
      LogImpl(Some(message.value), withTitle, createdPane);
      raised := false;
    }

    /** ShowAsync: the pane created if there is none, then activated when
      there is one. */
    method Show(createdPane: Option<nat>)
      modifies this
      ensures pane == (if old(pane).None? then createdPane else old(pane))
      ensures paneCreations == (if old(pane).None? then old(paneCreations) + 1 else old(paneCreations))
      ensures activated == old(activated) + (if pane.Some? then [pane.value] else [])
      ensures written == old(written)
      ensures old(Valid()) ==> Valid()
    {
      if pane.None? {
        SetPane(createdPane);
      }
      if pane.Some? {
        activated := activated + [pane.value];
      }
    }
  }
}
