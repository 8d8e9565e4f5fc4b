/**
 * Server set-up rules (src/socket/index.js): how the configured CORS
 * origins become the socket server's `cors.origin`, and where a new log
 * entry is pushed.
 */
module SocketServer {
  import opened Js
  import opened Rooms
  import LogStore

  /** `cors.origin`: any origin, or an explicit list. */
  datatype CorsOrigin = AnyOrigin | Origins(list: seq<string>)

  /** `s.split(sep)`: the pieces between separators, empty pieces included. */
  function Split(s: string, sep: char): (parts: seq<string>)
    ensures |parts| >= 1
    ensures forall i :: 0 <= i < |parts| ==> sep !in parts[i]
    decreases |s|
  {
    if |s| == 0 then [""]
    else
      var rest := Split(s[1..], sep);
      if s[0] == sep then [""] + rest else [[s[0]] + rest[0]] + rest[1..]
  }

  /** The pieces glued back together with `sep` between them. */
  function JoinWith(parts: seq<string>, sep: char): string
    requires |parts| >= 1
    decreases |parts|
  {
    if |parts| == 1 then parts[0] else parts[0] + [sep] + JoinWith(parts[1..], sep)
  }

  /** The number of occurrences of `c` in `s`. */
  function Count(s: string, c: char): nat
    decreases |s|
  {
    if |s| == 0 then 0 else (if s[0] == c then 1 else 0) + Count(s[1..], c)
  }

  /** Splitting yields one piece more than there are separators. */
  lemma {:induction false} SplitCount(s: string, sep: char)
    ensures |Split(s, sep)| == Count(s, sep) + 1
    decreases |s|
  {
    if |s| > 0 {
      SplitCount(s[1..], sep);
    }
  }

  /** Joining the pieces with the separator gives back the string: nothing is lost or reordered. */
  lemma {:induction false} SplitJoin(s: string, sep: char)
    ensures JoinWith(Split(s, sep), sep) == s
    decreases |s|
  {
    if |s| > 0 {
      var rest := Split(s[1..], sep);
      SplitJoin(s[1..], sep);
      if s[0] == sep {
        assert Split(s, sep)[1..] == rest;
        assert s == [sep] + s[1..];
      } else {
        var parts := Split(s, sep);
        if |rest| == 1 {
          assert parts == [[s[0]] + rest[0]];
        } else {
          assert parts[1..] == rest[1..];
          assert JoinWith(rest, sep) == rest[0] + [sep] + JoinWith(rest[1..], sep);
        }
        assert s == [s[0]] + s[1..];
      }
    }
  }

  /** Splitting a join of separator-free pieces gives back the pieces. */
  lemma {:induction false} JoinSplit(parts: seq<string>, sep: char)
    requires |parts| >= 1
    requires forall i :: 0 <= i < |parts| ==> sep !in parts[i]
    ensures Split(JoinWith(parts, sep), sep) == parts
    decreases |parts|
  {
    if |parts| == 1 {
      SplitPiece(parts[0], [], sep);
      assert parts[0] + [] == parts[0];
      assert Split([], sep) == [""];
    } else {
      var j := JoinWith(parts[1..], sep);
      var t := [sep] + j;
      JoinSplit(parts[1..], sep);
      SplitPiece(parts[0], t, sep);
      assert JoinWith(parts, sep) == parts[0] + t;
      assert t[1..] == j;
      assert Split(t, sep) == [""] + parts[1..];
      assert parts[0] + "" == parts[0];
      assert parts == [parts[0]] + parts[1..];
    }
  }

  /**
   * A separator-free prefix `p` ends up at the front of the first piece of
   * whatever follows it.
   */
  lemma {:induction false} SplitPiece(p: string, t: string, sep: char)
    requires sep !in p
    requires t == [] || t[0] == sep
    ensures Split(p + t, sep) == [p + Split(t, sep)[0]] + Split(t, sep)[1..]
    decreases |p|
  {
    if |p| == 0 {
      assert p + t == t;
      if t == [] {
      } else {
        var rest := Split(t[1..], sep);
        assert Split(t, sep) == [""] + rest;
      }
    } else {
      SplitPiece(p[1..], t, sep);
      assert (p + t)[1..] == p[1..] + t;
      assert (p + t)[0] == p[0];
      assert [p[0]] + (p[1..] + Split(t, sep)[0]) == p + Split(t, sep)[0];
    }
  }

  /** The characters `String.prototype.trim` removes: white space and line terminators. */
  predicate IsJsSpace(c: char)
  {
    var n := c as int;
    (9 <= n <= 13) || n == 0x20 || n == 0xA0 || n == 0x1680 || (0x2000 <= n <= 0x200A)
    || n == 0x2028 || n == 0x2029 || n == 0x202F || n == 0x205F || n == 0x3000 || n == 0xFEFF
  }

  /** The index of the first character that is not white space, or `|s|`. */
  function TrimStart(s: string): (i: nat)
    ensures i <= |s|
    ensures forall k :: 0 <= k < i ==> IsJsSpace(s[k])
    ensures i < |s| ==> !IsJsSpace(s[i])
    decreases |s|
  {
    if |s| == 0 || !IsJsSpace(s[0]) then 0 else 1 + TrimStart(s[1..])
  }

  /** One past the last character from `lo` on that is not white space, or `lo`. */
  function TrimEnd(s: string, lo: nat): (j: nat)
    requires lo <= |s|
    ensures lo <= j <= |s|
    ensures forall k :: j <= k < |s| ==> IsJsSpace(s[k])
    ensures j > lo ==> !IsJsSpace(s[j - 1])
    decreases |s|
  {
    if |s| == lo || !IsJsSpace(s[|s| - 1]) then |s| else TrimEnd(s[..|s| - 1], lo)
  }

  /**
   * `s.trim()`: the infix of `s` left after removing leading and trailing
   * white space; it neither starts nor ends with white space.
   */
  function Trim(s: string): (r: string)
    ensures r == "" || (!IsJsSpace(r[0]) && !IsJsSpace(r[|r| - 1]))
    ensures exists i, j :: 0 <= i <= j <= |s| && r == s[i..j]
              && (forall k :: 0 <= k < i ==> IsJsSpace(s[k]))
              && (forall k :: j <= k < |s| ==> IsJsSpace(s[k]))
  {
    var i := TrimStart(s);
    var j := TrimEnd(s, i);
    s[i..j]
  }

  /**
   * `corsOrigins`: exactly `'*'` stays a wildcard; anything else is split at
   * commas and each piece trimmed.
   */
  function CorsOrigins(setting: string): (o: CorsOrigin)
    ensures o.AnyOrigin? <==> setting == "*"
    ensures o.Origins? ==> |o.list| >= 1
    ensures o.Origins? ==> forall i :: 0 <= i < |o.list| ==> o.list[i] == "" || !IsJsSpace(o.list[i][0])
  {
    if setting == "*" then AnyOrigin
    else
      var pieces := Split(setting, ',');
      Origins(seq(|pieces|, i requires 0 <= i < |pieces| => Trim(pieces[i])))
  }

  /**
   * Any setting but `'*'` is a list with one entry per comma-separated piece,
   * in order, each the trimmed piece; empty pieces are kept as `""`.
   */
  lemma CorsList(setting: string)
    requires setting != "*"
    ensures CorsOrigins(setting).Origins?
    ensures |CorsOrigins(setting).list| == Count(setting, ',') + 1
    ensures forall i :: 0 <= i < |CorsOrigins(setting).list| ==>
              CorsOrigins(setting).list[i] == Trim(Split(setting, ',')[i])
  {
    SplitCount(setting, ',');
  }

  /** `' * '` is not `'*'`: it becomes the one-entry list `['*']`. */
  lemma PaddedStarIsAList()
    ensures CorsOrigins(" * ") == Origins(["*"])
  {
    var s := " * ";
    assert ',' !in s;
    SplitPiece(s, [], ',');
    assert s + [] == s;
    assert Split([], ',') == [""];
    assert Split(s, ',') == [s];
    assert s[1..] == "* " && TrimStart(s[1..]) == 0;
    assert TrimStart(s) == 1;
    assert s[..2] == " *" && TrimEnd(s[..2], 1) == 2;
    assert TrimEnd(s, 1) == 2;
    assert Trim(s) == s[1..2] == "*";
  }

  const LogsRoom: string := "logs-ui"

  /** A buffered log entry as the JSON object pushed to clients. */
  function EntryJson(e: LogStore.LogEntry): Json
  {
    Obj(map["timestamp" := Str(e.timestamp), "level" := Str(e.level), "message" := Str(e.message)])
  }

  /** The log hook: each entry goes to the members of `logs-ui` as event `logs:new`. */
  method PushLogEntry(io: Registry, e: LogStore.LogEntry)
    requires io.Valid()
    modifies io
    ensures io.Valid()
    ensures io.outbox == Deliver(old(io.outbox), Members(old(io.rooms), LogsRoom), Packet(Str("logs:new"), EntryJson(e)))
    ensures io.rooms == old(io.rooms) && io.connected == old(io.connected)
  {
    io.Emit(LogsRoom, Packet(Str("logs:new"), EntryJson(e)));
  }
}
