/** What the bootstrap Caddyfile says to a container that boots from it. */
module BootstrapText {
  import opened Containers
  import opened GoText
  import opened Splitting
  import opened Admin

  /** A reference reading of the admin option of a Caddyfile, line by line. */
  function ReadAdmin(lines: seq<string>, config: AdminConfig): AdminConfig {
    if lines == [] then config else ReadAdmin(lines[1..], ReadLine(Words(lines[0]), config))
  }

  function ReadLine(words: seq<string>, config: AdminConfig): AdminConfig {
    if words == [] then config
    else if words[0] == "admin" && |words| > 1 then config.(listen := words[1])
    else if words[0] == "origins" then config.(origins := config.origins + words[1..])
    else if words[0] == "enforce_origin" then config.(enforceOrigin := true)
    else config
  }

  function AdminOf(text: string): AdminConfig {
    ReadAdmin(Lines(text), AdminConfig("", false, []))
  }

  predicate IsPlainKey(key: string) {
    HasNone(key, {'\n', ' ', '\t'})
  }

  lemma {:induction false} ReadJoined(lines: seq<string>, config: AdminConfig)
    requires forall i :: 0 <= i < |lines| ==> HasNone(lines[i], {'\n'})
    ensures ReadAdmin(Lines(Joined(lines)), config) == ReadAdmin(lines, config)
  {
    if lines == [] {
      SplitOne("", {'\n'});
      OneWord("");
      assert [""][1..] == [];
    } else {
      var rest := Joined(lines[1..]);
      SplitConcat(lines[0], '\n', rest, {'\n'});
      SplitOne(lines[0], {'\n'});
      assert ([lines[0]] + Lines(rest))[1..] == Lines(rest);
      ReadJoined(lines[1..], ReadLine(Words(lines[0]), config));
    }
  }

  function Joined(lines: seq<string>): string {
    if lines == [] then "" else lines[0] + "\n" + Joined(lines[1..])
  }

  lemma Indented(s: string)
    ensures Words("\t" + s) == Words(s)
  {
    assert "" + ['\t'] + s == "\t" + s;
    WordsConcat("", '\t', s);
    OneWord("");
  }

  lemma TwoWords(a: string, s: string)
    requires a != "" && HasNone(a, BLANKS)
    ensures Words(a + " " + s) == [a] + Words(s)
  {
    WordsConcat(a, ' ', s);
    OneWord(a);
  }

  /** `admin :2019`, opening a block or not. */
  lemma AdminWords(name: string, port: string, brace: string)
    requires name != "" && port != "" && brace != ""
    requires HasNone(name, BLANKS) && HasNone(port, BLANKS) && HasNone(brace, BLANKS)
    ensures Words("\t" + (name + " " + port)) == [name, port]
    ensures Words("\t" + (name + " " + (port + " " + brace))) == [name, port, brace]
  {
    Indented(name + " " + port);
    TwoWords(name, port);
    OneWord(port);
    Indented(name + " " + (port + " " + brace));
    TwoWords(name, port + " " + brace);
    TwoWords(port, brace);
    OneWord(brace);
  }

  lemma IndentedWords(name: string, origin: string)
    requires name != "" && origin != "" && HasNone(name, BLANKS) && HasNone(origin, BLANKS)
    ensures Words("\t" + ("\t" + (name + " " + origin))) == [name, origin]
    ensures Words("\t" + ("\t" + name)) == [name] && Words("\t" + name) == [name] && Words(name) == [name]
  {
    Indented("\t" + (name + " " + origin));
    Indented(name + " " + origin);
    TwoWords(name, origin);
    OneWord(origin);
    Indented("\t" + name);
    Indented(name);
    OneWord(name);
  }

  lemma ReadStep(l: seq<string>, i: nat, words: seq<string>, config: AdminConfig)
    requires i < |l| && Words(l[i]) == words
    ensures ReadAdmin(l[i..], config) == ReadAdmin(l[i + 1..], ReadLine(words, config))
  {
    assert l[i..][0] == l[i] && l[i..][1..] == l[i + 1..];
  }

  lemma ReadBrace(l: seq<string>, i: nat, brace: string, config: AdminConfig)
    requires i < |l| && Words(l[i]) == [brace] && (brace == "{" || brace == "}")
    ensures ReadAdmin(l[i..], config) == ReadAdmin(l[i + 1..], config)
  {
    ReadStep(l, i, [brace], config);
  }

  /** The words of a line of the bootstrap and what they set. */
  lemma ReadOpen(l: seq<string>, open: string, admin: string, port: string, close: string, config: AdminConfig)
    requires |l| == 3 && Words(l[0]) == [open] && Words(l[1]) == [admin, port] && Words(l[2]) == [close]
    requires admin == "admin" && open == "{" && close == "}"
    ensures ReadAdmin(l, config) == config.(listen := port)
  {
    assert l[0..] == l && l[3..] == [];
    ReadBrace(l, 0, open, config);
    ReadStep(l, 1, [admin, port], config);
    ReadBrace(l, 2, close, config.(listen := port));
  }

  lemma ReadKeyed(
    l: seq<string>, open: string, admin: string, port: string, origins: string, origin: string, enforce: string,
    close: string, config: AdminConfig)
    requires |l| == 6 && Words(l[0]) == [open] && Words(l[1]) == [admin, port, open]
    requires Words(l[2]) == [origins, origin] && Words(l[3]) == [enforce] && Words(l[4]) == Words(l[5]) == [close]
    requires open == "{" && admin == "admin" && origins == "origins" && enforce == "enforce_origin" && close == "}"
    requires config.origins == []
    ensures ReadAdmin(l, config) == AdminConfig(port, true, [origin])
  {
    var c1 := config.(listen := port);
    var c2 := c1.(origins := [origin]);
    var c3 := c2.(enforceOrigin := true);
    assert l[0..] == l && l[6..] == [];
    ReadBrace(l, 0, open, config);
    ReadStep(l, 1, [admin, port, open], config);
    ReadStep(l, 2, [origins, origin], c1);
    assert [origins, origin][1..] == [origin] && config.origins + [origin] == [origin];
    ReadStep(l, 3, [enforce], c2);
    ReadBrace(l, 4, close, c3);
    ReadBrace(l, 5, close, c3);
  }

  /** The bootstrap listens on port 2019; with a key it enforces exactly the key's origin. */
  lemma BootstrapMeans(key: string)
    requires IsPlainKey(key)
    ensures AdminOf(BootstrapCaddyfile(key)) ==
            if key == "" then AdminConfig(":2019", false, [])
            else AdminConfig(":2019", true, [RequestOf(key).origin.value])
  {
    if key == "" {
      OpenBootstrap("{", "admin", ":2019", "}");
    } else {
      OriginPlain(key);
      KeyedBootstrap("{", "admin", ":2019", "origins", AdminOrigin(key), "enforce_origin", "}");
      KeyedText(AdminOrigin(key));
    }
  }

  lemma OpenBootstrap(open: string, admin: string, port: string, close: string)
    requires open == "{" && admin == "admin" && port == ":2019" && close == "}"
    ensures AdminOf(BootstrapCaddyfile("")) == AdminConfig(port, false, [])
  {
    var lines := [open, "\t" + (admin + " " + port), close];
    OpenText(open, admin, port, close);
    AdminWords(admin, port, open);
    IndentedWords(open, port);
    IndentedWords(close, port);
    ReadJoined(lines, AdminConfig("", false, []));
    ReadOpen(lines, open, admin, port, close, AdminConfig("", false, []));
  }

  lemma JoinedStep(l: seq<string>, i: nat)
    requires i < |l|
    ensures Joined(l[i..]) == l[i] + "\n" + Joined(l[i + 1..])
  {
    assert l[i..][0] == l[i] && l[i..][1..] == l[i + 1..];
  }

  lemma OpenText(open: string, admin: string, port: string, close: string)
    requires open == "{" && admin == "admin" && port == ":2019" && close == "}"
    ensures Joined([open, "\t" + (admin + " " + port), close]) == BootstrapCaddyfile("")
  {
    var l := [open, "\t" + (admin + " " + port), close];
    assert l[0..] == l && Joined(l[3..]) == "";
    JoinedStep(l, 0);
    JoinedStep(l, 1);
    JoinedStep(l, 2);
    OpenPieces(l[0], l[1], l[2]);
    OpenLiteral();
  }

  lemma OpenPieces(a: string, b: string, c: string)
    ensures a + "\n" + (b + "\n" + (c + "\n" + "")) == a + "\n" + b + "\n" + c + "\n"
  {
  }

  lemma OpenLiteral()
    ensures "{\n\tadmin :2019\n}\n" == "{" + "\n" + ("\t" + ("admin" + " " + ":2019")) + "\n" + "}" + "\n"
  {
  }

  function KeyedLines(
    open: string, admin: string, port: string, origins: string, origin: string, enforce: string, close: string)
    : seq<string>
  {
    [open, "\t" + (admin + " " + (port + " " + open)), "\t" + ("\t" + (origins + " " + origin)),
     "\t" + ("\t" + enforce), "\t" + close, close]
  }

  lemma KeyedBootstrap(
    open: string, admin: string, port: string, origins: string, origin: string, enforce: string, close: string)
    requires open == "{" && admin == "admin" && port == ":2019" && origins == "origins"
    requires enforce == "enforce_origin" && close == "}" && origin != "" && HasNone(origin, {'\n', ' ', '\t'})
    ensures AdminOf(Joined(KeyedLines(open, admin, port, origins, origin, enforce, close))) ==
            AdminConfig(port, true, [origin])
  {
    var lines := KeyedLines(open, admin, port, origins, origin, enforce, close);
    var config := AdminConfig("", false, []);
    KeyedOneLine(open, admin, port, origins, origin, enforce, close);
    ReadJoined(lines, config);
    KeyedWords(open, admin, port, origins, origin, enforce, close);
    ReadKeyed(lines, open, admin, port, origins, origin, enforce, close, config);
  }

  lemma KeyedOneLine(
    open: string, admin: string, port: string, origins: string, origin: string, enforce: string, close: string)
    requires open == "{" && admin == "admin" && port == ":2019" && origins == "origins"
    requires enforce == "enforce_origin" && close == "}" && HasNone(origin, {'\n'})
    ensures var l := KeyedLines(open, admin, port, origins, origin, enforce, close);
            forall i :: 0 <= i < |l| ==> HasNone(l[i], {'\n'})
  {
    var l := KeyedLines(open, admin, port, origins, origin, enforce, close);
    assert HasNone(l[0], {'\n'}) && HasNone(l[3], {'\n'}) && HasNone(l[4], {'\n'}) && HasNone(l[5], {'\n'});
    assert HasNone(l[1], {'\n'}) && HasNone(l[2], {'\n'});
  }

  lemma KeyedWords(
    open: string, admin: string, port: string, origins: string, origin: string, enforce: string, close: string)
    requires open != "" && admin != "" && port != "" && origins != "" && origin != "" && enforce != "" && close != ""
    requires HasNone(open, BLANKS) && HasNone(admin, BLANKS) && HasNone(port, BLANKS) && HasNone(origins, BLANKS)
    requires HasNone(origin, BLANKS) && HasNone(enforce, BLANKS) && HasNone(close, BLANKS)
    ensures var l := KeyedLines(open, admin, port, origins, origin, enforce, close);
            && Words(l[0]) == [open] && Words(l[1]) == [admin, port, open] && Words(l[2]) == [origins, origin]
            && Words(l[3]) == [enforce] && Words(l[4]) == [close] && Words(l[5]) == [close]
  {
    AdminWords(admin, port, open);
    IndentedWords(open, port);
    IndentedWords(origins, origin);
    IndentedWords(enforce, origin);
    IndentedWords(close, origin);
  }

  lemma KeyedText(origin: string)
    ensures "{\n\tadmin :2019 {\n\t\torigins " + origin + "\n\t\tenforce_origin\n\t}\n}\n" ==
            Joined(KeyedLines("{", "admin", ":2019", "origins", origin, "enforce_origin", "}"))
  {
    var l := KeyedLines("{", "admin", ":2019", "origins", origin, "enforce_origin", "}");
    JoinSix(l);
    KeyedPieces(l[0], l[1], "\t\torigins ", origin, l[3], l[4], l[5]);
    assert l[2] == "\t\torigins " + origin;
    KeyedHead();
    KeyedTail();
  }

  lemma KeyedHead()
    ensures "{\n\tadmin :2019 {\n\t\torigins " ==
            "{" + "\n" + ("\t" + ("admin" + " " + (":2019" + " " + "{"))) + "\n" + "\t\torigins "
  {
  }

  lemma KeyedTail()
    ensures "\n\t\tenforce_origin\n\t}\n}\n" ==
            "\n" + ("\t" + ("\t" + "enforce_origin")) + "\n" + ("\t" + "}") + "\n" + "}" + "\n"
  {
  }

  lemma KeyedPieces(a: string, b: string, head: string, origin: string, c: string, d: string, e: string)
    ensures (a + "\n" + b + "\n" + head) + origin + ("\n" + c + "\n" + d + "\n" + e + "\n") ==
            a + "\n" + (b + "\n" + ((head + origin) + "\n" + (c + "\n" + (d + "\n" + (e + "\n")))))
  {
  }

  lemma JoinSix(l: seq<string>)
    requires |l| == 6
    ensures Joined(l) == l[0] + "\n" + (l[1] + "\n" + (l[2] + "\n" + (l[3] + "\n" + (l[4] + "\n" + (l[5] + "\n")))))
  {
    assert l[0..] == l && Joined(l[6..]) == "";
    JoinedStep(l, 0);
    JoinedStep(l, 1);
    JoinedStep(l, 2);
    JoinedStep(l, 3);
    JoinedStep(l, 4);
    JoinedStep(l, 5);
    assert l[5] + "\n" + "" == l[5] + "\n";
  }

  lemma OriginPlain(key: string)
    requires IsPlainKey(key)
    ensures HasNone(AdminOrigin(key), {'\n', ' ', '\t'})
  {
    var head, tail := "http://", ".caddy-admin-api.ckic.cmld.ru";
    assert HasNone(head, {'\n', ' ', '\t'}) && HasNone(tail, {'\n', ' ', '\t'});
    forall i | 0 <= i < |AdminOrigin(key)| ensures AdminOrigin(key)[i] !in {'\n', ' ', '\t'} {
      assert i >= |head| && i < |head| + |key| ==> AdminOrigin(key)[i] == key[i - |head|];
      assert i >= |head| + |key| ==> AdminOrigin(key)[i] == tail[i - |head| - |key|];
    }
  }

  /** So a container booted from it answers its own client, and with a key nobody else's. */
  lemma BootstrapAnswersItsClient(key: string, other: string)
    requires IsPlainKey(key)
    ensures Answers(AdminOf(BootstrapCaddyfile(key)), RequestOf(key))
    ensures key != "" && other != key ==> !Answers(AdminOf(BootstrapCaddyfile(key)), RequestOf(other))
  {
    BootstrapMeans(key);
    if key != "" && other != "" && RequestOf(other).origin == RequestOf(key).origin {
      FrameInjective("http://", key, other, ".caddy-admin-api.ckic.cmld.ru");
    }
  }
}
