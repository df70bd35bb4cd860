/** The shell scripts sent into a gateway, and how a shell splits them into words (sections
    2.2.1, 2.2.2 and 2.3 of the POSIX.1-2017 Shell Command Language). */
module ShellQuote {
  import opened Common

  // ---------------------------------------------------------------- the printer

  /** `x.replace("'", "'\\''")` */
  function Escape(x: string): string {
    if x == [] then [] else (if x[0] == '\'' then "'\\''" else [x[0]]) + Escape(x[1..])
  }

  function Auth(token: string): string { "Authorization: Bearer " + token }

  const COMMAND := "wget -qO- -T 30 "
  const HEADER := "--header="
  const DATA := "--post-data="
  const JSON := "Content-Type: application/json"

  function Quoted(x: string): string { "'" + Escape(x) + "'" }

  function GetScript(token: string, url: string): string {
    COMMAND + (HEADER + Quoted(Auth(token)) + " ") + Quoted(url)
  }

  /** An absent body is sent as an empty payload; the content type is a fixed text. */
  function PostScript(token: string, url: string, payload: string): string {
    COMMAND + (HEADER + Quoted(Auth(token)) + " ") + (HEADER + ("'" + JSON + "'") + " ") +
    (DATA + Quoted(payload) + " ") + Quoted(url)
  }

  // ---------------------------------------------------------------- the shell

  predicate Blank(c: char) { c == ' ' || c == '\t' }

  /** Unquoted characters that stand for themselves wherever they come in a word. */
  predicate Plain(c: char) {
    'a' <= c <= 'z' || 'A' <= c <= 'Z' || '0' <= c <= '9' || c == '-' || c == '_' || c == '.' || c == '/' || c == ':' || c == '=' || c == '+'
  }

  function Push(words: seq<string>, word: Option<string>): seq<string> {
    match word case None => words case Some(w) => words + [w]
  }

  function Grow(word: Option<string>, c: char): Option<string> {
    match word case None => Some([c]) case Some(w) => Some(w + [c])
  }

  /** The words of a simple command, scanned from outside any quotes; nothing when a quote is
      left open, or when an unquoted character is one that can mean something else. */
  function Words(s: string, word: Option<string>, words: seq<string>): Option<seq<string>>
    decreases |s|
  {
    if s == [] then Some(Push(words, word))
    else if Blank(s[0]) then Words(s[1..], None, Push(words, word))
    else if s[0] == '\'' then InQuotes(s[1..], if word.Some? then word.value else "", words)
    else if s[0] == '\\' then
      if |s| < 2 then None
      else if s[1] == '\n' then Words(s[2..], word, words)
      else Words(s[2..], Grow(word, s[1]), words)
    else if Plain(s[0]) then Words(s[1..], Grow(word, s[0]), words)
    else None
  }

  function InQuotes(s: string, word: string, words: seq<string>): Option<seq<string>>
    decreases |s|
  {
    if s == [] then None
    else if s[0] == '\'' then Words(s[1..], Some(word), words)
    else InQuotes(s[1..], word + [s[0]], words)
  }

  // ---------------------------------------------------------------- the round trip

  lemma EscapedQuote(tail: string, word: string, words: seq<string>)
    ensures InQuotes(['\'', '\\', '\'', '\''] + tail, word, words) == InQuotes(tail, word + ['\''], words)
  {
    var s3 := ['\''] + tail;
    var s1 := ['\\', '\''] + s3;
    var s := ['\'', '\\', '\'', '\''] + tail;
    assert s[1..] == s1 && s1[2..] == s3 && s3[1..] == tail;
    assert InQuotes(s, word, words) == Words(s1, Some(word), words);
    assert Words(s1, Some(word), words) == Words(s3, Some(word + ['\'']), words);
  }

  /** Between single quotes, an escaped text and the closing quote give back the text. */
  lemma {:induction false} EscapeReadsBack(x: string, rest: string, word: string, words: seq<string>)
    ensures InQuotes(Escape(x) + "'" + rest, word, words) == Words(rest, Some(word + x), words)
  {
    if x == [] {
      assert Escape(x) + "'" + rest == "'" + rest;
      assert ("'" + rest)[1..] == rest;
      assert word + x == word;
    } else if x[0] == '\'' {
      var tail := Escape(x[1..]) + "'" + rest;
      assert Escape(x) + "'" + rest == ['\'', '\\', '\'', '\''] + tail;
      EscapedQuote(tail, word, words);
      EscapeReadsBack(x[1..], rest, word + ['\''], words);
      assert word + ['\''] + x[1..] == word + x;
    } else {
      var tail := Escape(x[1..]) + "'" + rest;
      var s := Escape(x) + "'" + rest;
      assert s == [x[0]] + tail;
      assert s[1..] == tail;
      EscapeReadsBack(x[1..], rest, word + [x[0]], words);
      assert word + [x[0]] + x[1..] == word + x;
    }
  }

  lemma {:induction false} PlainReadsBack(p: string, rest: string, word: Option<string>, words: seq<string>)
    requires p != [] && forall c :: c in p ==> Plain(c)
    ensures Words(p + rest, word, words) == Words(rest, Some((if word.Some? then word.value else "") + p), words)
  {
    var s := p + rest;
    assert s[1..] == p[1..] + rest && s[0] in p && "" + [p[0]] == [p[0]];
    if |p| == 1 {
      assert p[1..] + rest == rest && p == [p[0]];
    } else {
      var before := if word.Some? then word.value else "";
      PlainReadsBack(p[1..], rest, Grow(word, p[0]), words);
      assert Grow(word, p[0]) == Some(before + [p[0]]);
      assert before + [p[0]] + p[1..] == before + p;
    }
  }

  /** A plain word and a space. */
  lemma PlainWord(p: string, rest: string, words: seq<string>)
    requires p != [] && forall c :: c in p ==> Plain(c)
    ensures Words(p + " " + rest, None, words) == Words(rest, None, words + [p])
  {
    PlainReadsBack(p, " " + rest, None, words);
    assert p + " " + rest == p + (" " + rest) && "" + p == p;
    assert (" " + rest)[1..] == rest;
  }

  /** A plain start and a quoted rest make one word. */
  lemma QuotedWord(p: string, x: string, rest: string, words: seq<string>)
    requires forall c :: c in p ==> Plain(c)
    ensures Words(p + Quoted(x) + rest, None, words) == Words(rest, Some(p + x), words)
  {
    var tail := Escape(x) + "'" + rest;
    assert p + Quoted(x) + rest == p + ("'" + tail);
    assert ("'" + tail)[1..] == tail;
    if p == [] {
      assert p + ("'" + tail) == "'" + tail;
      EscapeReadsBack(x, rest, "", words);
    } else {
      PlainReadsBack(p, "'" + tail, None, words);
      assert "" + p == p;
      EscapeReadsBack(x, rest, p, words);
    }
  }

  lemma QuotedWordThenMore(p: string, x: string, rest: string, words: seq<string>)
    requires forall c :: c in p ==> Plain(c)
    ensures Words((p + Quoted(x) + " ") + rest, None, words) == Words(rest, None, words + [p + x])
  {
    hide Quoted;
    assert (p + Quoted(x) + " ") + rest == p + Quoted(x) + (" " + rest);
    QuotedWord(p, x, " " + rest, words);
    assert (" " + rest)[1..] == rest;
  }

  lemma LastQuotedWord(x: string, words: seq<string>)
    ensures Words(Quoted(x), None, words) == Some(words + [x])
  {
    QuotedWord("", x, "", words);
    assert "" + Quoted(x) + "" == Quoted(x);
    assert "" + x == x;
  }

  const START: seq<string> := ["wget", "-qO-", "-T", "30"]

  lemma StartReadsBack(rest: string)
    ensures Words(COMMAND + rest, None, []) == Words(rest, None, START)
  {
    hide Words;
    assert COMMAND + rest == "wget" + " " + ("-qO- -T 30 " + rest);
    assert "-qO- -T 30 " + rest == "-qO-" + " " + ("-T 30 " + rest);
    assert "-T 30 " + rest == "-T" + " " + ("30 " + rest);
    assert "30 " + rest == "30" + " " + rest;
    PlainWord("wget", "-qO- -T 30 " + rest, []);
    PlainWord("-qO-", "-T 30 " + rest, ["wget"]);
    PlainWord("-T", "30 " + rest, ["wget", "-qO-"]);
    PlainWord("30", rest, ["wget", "-qO-", "-T"]);
    assert [] + ["wget"] == ["wget"] && ["wget"] + ["-qO-"] == ["wget", "-qO-"];
    assert ["wget", "-qO-"] + ["-T"] == ["wget", "-qO-", "-T"] && ["wget", "-qO-", "-T"] + ["30"] == START;
  }

  lemma Regroup(a: string, b: string, c: string, d: string, e: string)
    ensures a + b + c == a + (b + c)
    ensures a + b + c + d + e == a + (b + (c + (d + e)))
  {
  }

  lemma GetWords(token: string, url: string)
    ensures Words(GetScript(token, url), None, []) == Some(START + [HEADER + Auth(token), url])
  {
    hide Words, Auth, Quoted;
    var header := HEADER + Quoted(Auth(token)) + " ";
    Regroup(COMMAND, header, Quoted(url), [], []);
    StartReadsBack(header + Quoted(url));
    QuotedWordThenMore(HEADER, Auth(token), Quoted(url), START);
    LastQuotedWord(url, START + [HEADER + Auth(token)]);
    assert START + [HEADER + Auth(token)] + [url] == START + [HEADER + Auth(token), url];
  }

  predicate AllPlain(p: string) { forall c :: c in p ==> Plain(c) }

  /** Three words with a plain start each, and a last one. */
  lemma FourWords(p: seq<string>, x: seq<string>, words: seq<string>)
    requires |p| == 3 && |x| == 4 && forall i :: 0 <= i < 3 ==> AllPlain(p[i])
    ensures Words((p[0] + Quoted(x[0]) + " ") + ((p[1] + Quoted(x[1]) + " ") + ((p[2] + Quoted(x[2]) + " ") + Quoted(x[3]))), None, words) ==
      Some(words + [p[0] + x[0], p[1] + x[1], p[2] + x[2], x[3]])
  {
    hide Words, Quoted, Plain;
    var s3 := (p[2] + Quoted(x[2]) + " ") + Quoted(x[3]);
    var s2 := (p[1] + Quoted(x[1]) + " ") + s3;
    assert AllPlain(p[0]) && AllPlain(p[1]) && AllPlain(p[2]);
    var w1 := words + [p[0] + x[0]];
    var w2 := w1 + [p[1] + x[1]];
    var w3 := w2 + [p[2] + x[2]];
    QuotedWordThenMore(p[0], x[0], s2, words);
    QuotedWordThenMore(p[1], x[1], s3, w1);
    QuotedWordThenMore(p[2], x[2], Quoted(x[3]), w2);
    LastQuotedWord(x[3], w3);
    assert w3 + [x[3]] == words + [p[0] + x[0], p[1] + x[1], p[2] + x[2], x[3]];
  }

  lemma PlainStarts()
    ensures AllPlain(HEADER) && AllPlain(DATA)
  {
  }

  lemma JsonIsQuoted()
    ensures "'" + JSON + "'" == Quoted(JSON)
  {
    NothingToEscape(JSON);
  }

  lemma PostShape(token: string, url: string, payload: string)
    ensures PostScript(token, url, payload) ==
      COMMAND + ((HEADER + Quoted(Auth(token)) + " ") + ((HEADER + Quoted(JSON) + " ") + ((DATA + Quoted(payload) + " ") + Quoted(url))))
  {
    JsonIsQuoted();
    hide Auth, Quoted, COMMAND, JSON, HEADER, DATA;
    Regroup(COMMAND, HEADER + Quoted(Auth(token)) + " ", HEADER + Quoted(JSON) + " ", DATA + Quoted(payload) + " ", Quoted(url));
  }

  lemma PostWords(token: string, url: string, payload: string)
    ensures Words(PostScript(token, url, payload), None, []) ==
      Some(START + [HEADER + Auth(token), HEADER + JSON, DATA + payload, url])
  {
    PlainStarts();
    PostShape(token, url, payload);
    hide Words, Auth, Quoted, COMMAND, JSON, START, AllPlain, HEADER, DATA, PostScript;
    var p := [HEADER, HEADER, DATA];
    var x := [Auth(token), JSON, payload, url];
    StartReadsBack((HEADER + Quoted(Auth(token)) + " ") + ((HEADER + Quoted(JSON) + " ") + ((DATA + Quoted(payload) + " ") + Quoted(url))));
    FourWords(p, x, START);
  }

  lemma {:induction false} NothingToEscape(x: string)
    requires '\'' !in x
    ensures Escape(x) == x
  {
    if x != [] { NothingToEscape(x[1..]); }
  }

  // ---------------------------------------------------------------- the arguments, written out

  lemma BearerHeader(token: string)
    ensures HEADER + Auth(token) == "--header=Authorization: Bearer " + token
  {
  }

  /** For every token and URL the shell runs wget with exactly these arguments. */
  lemma GetReadsBack(token: string, url: string)
    ensures Words(GetScript(token, url), None, []) ==
      Some(["wget", "-qO-", "-T", "30", "--header=Authorization: Bearer " + token, url])
  {
    GetWords(token, url);
    BearerHeader(token);
    hide Words, GetScript, Auth, HEADER;
    FourAndTwo("--header=Authorization: Bearer " + token, url);
  }

  lemma FourAndTwo(a: string, b: string)
    ensures START + [a, b] == ["wget", "-qO-", "-T", "30", a, b]
  {
  }

  /** Likewise for every token, URL and payload. */
  lemma PostReadsBack(token: string, url: string, payload: string)
    ensures Words(PostScript(token, url, payload), None, []) ==
      Some(["wget", "-qO-", "-T", "30", "--header=Authorization: Bearer " + token, "--header=Content-Type: application/json",
            "--post-data=" + payload, url])
  {
    PostWords(token, url, payload);
    BearerHeader(token);
    PostLiterals(payload);
    hide Words, PostScript, Auth, HEADER, DATA, JSON;
    FourAndFour("--header=Authorization: Bearer " + token, HEADER + JSON, DATA + payload, url);
  }

  lemma PostLiterals(payload: string)
    ensures HEADER + JSON == "--header=Content-Type: application/json" && DATA + payload == "--post-data=" + payload
  {
  }

  lemma FourAndFour(a: string, b: string, c: string, d: string)
    ensures START + [a, b, c, d] == ["wget", "-qO-", "-T", "30", a, b, c, d]
  {
  }
}
