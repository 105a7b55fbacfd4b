/** Two independently written parsers of one frame, in the worker and in the command line client. */
module SseData {
  import opened Text
  import opened TextFacts
  import opened TextLines

  const DATA := "data:"
  const EVENT := "event:"

  function DataItems(lines: seq<string>): seq<string> {
    if lines == [] then []
    else
      var front, line := lines[..|lines| - 1], lines[|lines| - 1];
      if DATA <= line then DataItems(front) + [Trim(line[|DATA|..])] else DataItems(front)
  }

  function JoinLines(items: seq<string>): string {
    if items == [] then []
    else if |items| == 1 then items[0]
    else JoinLines(items[..|items| - 1]) + "\n" + items[|items| - 1]
  }

  /** The worker's parser: the trimmed data lines, joined; nothing when there is none. */
  function ExtractSseData(frame: string): Option<string> {
    var items := DataItems(Lines(frame));
    if items == [] then None else Some(JoinLines(items))
  }

  function WithoutLeadingNewlines(s: string): string {
    if s != [] && s[0] == '\n' then WithoutLeadingNewlines(s[1..]) else s
  }

  /** The trimmed text of the last event line. */
  function EventName(lines: seq<string>): string {
    if lines == [] then []
    else
      var line := lines[|lines| - 1];
      if EVENT <= line then Trim(line[|EVENT|..]) else EventName(lines[..|lines| - 1])
  }

  /** The client's data: a newline goes only behind data that is not empty. */
  function ClientData(lines: seq<string>): string {
    if lines == [] then []
    else
      var data, line := ClientData(lines[..|lines| - 1]), lines[|lines| - 1];
      if EVENT <= line || !(DATA <= line) then data
      else (if data == [] then [] else data + "\n") + Trim(line[|DATA|..])
  }

  // ---- no data item holds a newline ----

  lemma {:induction false} TrimKeepsAway(s: string, c: char)
    requires c !in s
    ensures c !in Trim(s)
  {
    TrimStartKeepsAway(s, c);
    TrimEndKeepsAway(TrimStart(s), c);
  }

  lemma {:induction false} TrimStartKeepsAway(s: string, c: char)
    requires c !in s
    ensures c !in TrimStart(s)
  {
    if s != [] && IsWhitespace(s[0]) {
      TrimStartKeepsAway(s[1..], c);
    }
  }

  lemma {:induction false} TrimEndKeepsAway(s: string, c: char)
    requires c !in s
    ensures c !in TrimEnd(s)
  {
    if s != [] && IsWhitespace(s[|s| - 1]) {
      TrimEndKeepsAway(s[..|s| - 1], c);
    }
  }

  lemma {:induction false} StripJoined(data: string, item: string)
    requires '\n' !in item
    ensures WithoutLeadingNewlines(data + "\n" + item)
            == (if WithoutLeadingNewlines(data) == [] then [] else WithoutLeadingNewlines(data) + "\n") + item
  {
    var s := data + "\n" + item;
    if data == [] {
      assert s[1..] == item;
    } else if data[0] == '\n' {
      StripJoined(data[1..], item);
      assert s[1..] == data[1..] + "\n" + item;
    }
  }

  lemma {:induction false} ClientDataIs(lines: seq<string>)
    requires forall i | 0 <= i < |lines| :: '\n' !in lines[i]
    ensures ClientData(lines) == WithoutLeadingNewlines(JoinLines(DataItems(lines)))
  {
    if lines != [] {
      var front, line := lines[..|lines| - 1], lines[|lines| - 1];
      ClientDataIs(front);
      if DATA <= line {
        assert line[0] == 'd' && !(EVENT <= line);
        var items, item := DataItems(front), Trim(line[|DATA|..]);
        TrimKeepsAway(line[|DATA|..], '\n');
        assert (items + [item])[..|items|] == items;
        if items == [] {
          assert [] + [item] == [item];
        } else {
          StripJoined(JoinLines(items), item);
        }
      }
    }
  }

  /** On every frame the client reads the worker's data without its leading newlines. */
  lemma ParsersAgree(frame: string)
    ensures ClientData(Lines(frame))
            == (match ExtractSseData(frame) case None => "" case Some(data) => WithoutLeadingNewlines(data))
  {
    LinesHoldNoNewline(frame);
    ClientDataIs(Lines(frame));
  }

  lemma OneLine(line: string)
    requires line != [] && '\n' !in line
    ensures Lines(line) == [line]
  {
    NewlineIsFirst(line);
  }

  lemma TwoLines(first: string, second: string)
    requires first != "" && second != "" && '\n' !in first && '\n' !in second && first[|first| - 1] != '\r'
    ensures Lines(first + "\n" + second) == [first, second]
  {
    LinesOfJoined(first, second);
    OneLine(second);
  }

  lemma TrimSpaced(s: string)
    requires Trim(s) == s
    ensures Trim(" " + s) == s && (s != "" ==> !IsWhitespace(s[|s| - 1]))
  {
    TrimIgnoresBlanks(" ", s, "");
    assert " " + s + "" == " " + s;
    TrimEndSplits(TrimStart(s));
  }

  lemma EventLine(line: string, name: string)
    requires line == "event:" + (" " + name) && Trim(name) == name
    ensures EventName([line]) == name && ClientData([line]) == "" && DataItems([line]) == []
  {
    TrimSpaced(name);
    assert [line][..0] == [] && line[|EVENT|..] == " " + name && line[0] == 'e';
  }

  lemma DataLine(lines: seq<string>, line: string, data: string)
    requires line == "data:" + (" " + data) && Trim(data) == data
    ensures EventName(lines + [line]) == EventName(lines) && DataItems(lines + [line]) == DataItems(lines) + [data]
    ensures ClientData(lines) == "" ==> ClientData(lines + [line]) == data
  {
    TrimSpaced(data);
    assert (lines + [line])[..|lines|] == lines && line[|DATA|..] == " " + data && line[0] == 'd';
  }

  /** A frame as it is written, an event line and a data line, is read back by both parsers. */
  lemma WrittenFrameIsRead(name: string, data: string, first: string, second: string)
    requires '\n' !in first && '\n' !in second && Trim(name) == name && Trim(data) == data && name != ""
    requires first == "event:" + (" " + name) && second == "data:" + (" " + data)
    ensures EventName(Lines(first + "\n" + second)) == name && ClientData(Lines(first + "\n" + second)) == data
    ensures ExtractSseData(first + "\n" + second) == Some(data)
  {
    TrimSpaced(name);
    assert first[|first| - 1] == name[|name| - 1];
    TwoLines(first, second);
    EventLine(first, name);
    DataLine([first], second, data);
    assert [first] + [second] == [first, second] && [] + [data] == [data];
  }

  /** The client's parser, line by line. It accepts only frames named state_change that carry data. */
  method ParseSseFrame<E>(frame: string, decode: string -> Option<E>) returns (event: Option<E>)
    ensures event == if EventName(Lines(frame)) != "state_change" || ClientData(Lines(frame)) == "" then None
                     else decode(ClientData(Lines(frame)))
  {
    var lines := Lines(frame);
    var eventName, data := "", "";
    for n := 0 to |lines|
      invariant eventName == EventName(lines[..n]) && data == ClientData(lines[..n])
    {
      var line := lines[n];
      assert lines[..n + 1][..n] == lines[..n];
      if EVENT <= line {
        eventName := Trim(line[|EVENT|..]);
      } else if DATA <= line {
        if data != "" {
          data := data + "\n";
        }
        data := data + Trim(line[|DATA|..]);
      }
    }
    assert lines[..|lines|] == lines;
    if eventName != "state_change" || data == "" {
      return None;
    }
    return decode(data);
  }
}
