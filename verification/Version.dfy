/**
 Protocol version negotiation: the client's hello, the server's verdict and the client's reading of
 its reply (src/utils.rs, src/ws/server/mod.rs, src/ws/client/connection_loop.rs).
 */
module Version {
  import opened Basics
  import opened Text

  const ACCEPTED := "PROTOCOL_ACCEPTED"
  const REJECTED := "PROTOCOL_REJECTED"

  predicate ValidChar(c: char) {
    || 'a' <= c <= 'z' || 'A' <= c <= 'Z' || '0' <= c <= '9' || c == '.' || c == '-' || c == '_'
  }

  /** What every configured protocol name and version satisfies. */
  predicate ValidString(s: string) {
    forall c | c in s :: ValidChar(c)
  }

  /** Configuration fails (`ok` is false) on the first character that is not allowed. */
  method ValidateProtocolString(s: string) returns (ok: bool)
    ensures ok == ValidString(s)
  {
    for i := 0 to |s|
      invariant forall c | c in s[..i] :: ValidChar(c)
    {
      if !ValidChar(s[i]) {
        return false;
      }
      assert s[..i + 1] == s[..i] + [s[i]];
    }
    assert s[..|s|] == s;
    ok := true;
  }

  datatype Protocol = Protocol(name: string, version: string) {
    predicate Valid() {
      ValidString(name) && ValidString(version)
    }
  }

  /** The server's outcome: Online goes on to the Noise handshake. */
  datatype Verdict = Proceed | WrongName | WrongVersion(client: string)

  function Hello(client: Protocol): string {
    client.name + " " + client.version
  }

  /** A hello is a name and a version with one blank between them. */
  lemma HelloText(client: Protocol)
    requires client.Valid()
    ensures Split(Hello(client), ' ') == [client.name, client.version]
  {
    ValidHasNoBlank(client.name);
    ValidHasNoBlank(client.version);
    SplitFirst(client.name, ' ', client.version);
    assert Hello(client) == client.name + [' '] + client.version;
    assert Find(client.version, ' ') == None;
    assert [client.name] + [client.version] == [client.name, client.version];
  }

  /** The server's judgement of any hello text. */
  function Judge(server: Protocol, hello: string): Verdict {
    var prefix := server.name + " ";
    if !(prefix <= hello) then WrongName
    else
      var version := Trim(TrimStartMatches(hello, prefix));
      if version != server.version then WrongVersion(version) else Proceed
  }

  function Reply(server: Protocol, verdict: Verdict): string {
    if verdict.Proceed? then ACCEPTED else REJECTED + " " + server.version
  }

  /** The client's reading of a reply. */
  datatype Reading = Continue | Mismatch(server: string) | InvalidReply

  function Read(reply: string): Reading {
    if Contains(reply, ACCEPTED) then Continue
    else if Contains(reply, REJECTED) then
      Mismatch(match StripPrefix(reply, REJECTED + " ")
               case Some(version) => Trim(version)
               case None => Trim("unknown"))
    else InvalidReply
  }

  lemma ValidHasNoBlank(s: string)
    requires ValidString(s)
    ensures ' ' !in s && Trim(s) == s
  {
    TrimNothing(s);
  }

  /** The first blank ends the name. */
  lemma NameFromHello(a: string, b: string, rest: string)
    requires ' ' !in a && ' ' !in b
    ensures a + " " <= b + " " + rest <==> a == b
  {
    var p, s := a + " ", b + " " + rest;
    assert p[|a|] == ' ' && s[|b|] == ' ';
    assert p <= s ==> s[|a|] == p[|a|];
    assert |a| < |b| ==> s[|a|] == b[|a|];
    assert |b| < |a| ==> p[|b|] == a[|b|];
    assert p <= s && |a| == |b| ==> a == p[..|a|] == s[..|a|] == b;
  }

  /** The server accepts exactly the clients with its own name and version, and otherwise sees the client's true version if the name is its own. */
  lemma ServerAcceptsIff(client: Protocol, server: Protocol)
    requires client.Valid() && server.Valid()
    ensures Judge(server, Hello(client)) ==
              if client.name != server.name then WrongName
              else if client.version != server.version then WrongVersion(client.version)
              else Proceed
  {
    ValidHasNoBlank(client.name);
    ValidHasNoBlank(server.name);
    ValidHasNoBlank(client.version);
    NameFromHello(server.name, client.name, client.version);
    if client.name == server.name {
      var prefix, hello := server.name + " ", Hello(client);
      assert hello[|prefix|..] == client.version;
      assert prefix[|server.name|] == ' ';
      assert TrimStartMatches(hello, prefix) == TrimStartMatches(client.version, prefix) == client.version;
    }
  }

  /** Where a word stands in a text. */
  ghost predicate Holds(s: string, word: string) {
    exists i: nat :: StandsAt(s, word, i)
  }

  /**
   Any reply at all: the accepting word anywhere in it is an acceptance, the rejecting word otherwise a
   mismatch, with the version that follows it at the start of the reply, and neither word is an error.
   */
  lemma ReadIs(reply: string)
    ensures Read(reply) == Continue <==> Holds(reply, "PROTOCOL_ACCEPTED")
    ensures Read(reply) == InvalidReply <==> !Holds(reply, "PROTOCOL_ACCEPTED") && !Holds(reply, "PROTOCOL_REJECTED")
    ensures Read(reply).Mismatch? ==>
              Read(reply).server == if StandsAt(reply, "PROTOCOL_REJECTED ", 0) then Trim(reply[18..]) else "unknown"
  {
    ContainsIff(reply, ACCEPTED);
    ContainsIff(reply, REJECTED);
    assert REJECTED + " " == "PROTOCOL_REJECTED ";
    if StandsAt(reply, "PROTOCOL_REJECTED ", 0) {
      assert reply[..18] == reply[0..0 + 18];
    }
    TrimNothing("unknown");
  }

  lemma ReadAccepted()
    ensures Read(ACCEPTED) == Continue
  {
  }

  /** A rejection is read as an acceptance exactly when the server's own version contains the accepting word. */
  lemma ReadRejected(version: string)
    requires ValidString(version)
    ensures Read(REJECTED + " " + version) == if Contains(version, ACCEPTED) then Continue else Mismatch(version)
  {
    var reply := REJECTED + " " + version;
    ContainsAcrossBlank(REJECTED, version, ACCEPTED);
    ContainsAcrossBlank(REJECTED, version, REJECTED);
    TooShort(REJECTED, ACCEPTED);
    ValidHasNoBlank(version);
    assert REJECTED + " " <= reply && reply[|REJECTED + " "|..] == version;
  }

  lemma TooShort(s: string, word: string)
    requires |s| == |word| && s != word
    ensures !Contains(s, word)
  {
    if |s| > 0 {
      ContainsLength(s[1..], word);
    }
  }

  lemma {:induction false} ContainsLength(s: string, word: string)
    ensures Contains(s, word) ==> |word| <= |s|
  {
    if |s| > 0 {
      ContainsLength(s[1..], word);
    }
  }

  /**
   The two sides agree. The client continues exactly when the server accepted, except that a server
   whose version contains the accepting word is always taken to accept; on a rejection the client
   recovers exactly the server's version.
   */
  lemma Agreement(client: Protocol, server: Protocol)
    requires client.Valid() && server.Valid()
    ensures var verdict := Judge(server, Hello(client));
            && (verdict.Proceed? <==> client == server)
            && Read(Reply(server, verdict)) ==
                 if verdict.Proceed? || Contains(server.version, ACCEPTED) then Continue else Mismatch(server.version)
  {
    ServerAcceptsIff(client, server);
    ReadAccepted();
    ReadRejected(server.version);
  }

  /** A valid configuration in which the client continues though the server has hung up. */
  lemma Disagreement()
    ensures var client, server := Protocol("chat", "1"), Protocol("chat", ACCEPTED);
            && client.Valid() && server.Valid()
            && Judge(server, Hello(client)) == WrongVersion("1")
            && Read(Reply(server, Judge(server, Hello(client)))) == Continue
  {
    var client, server := Protocol("chat", "1"), Protocol("chat", ACCEPTED);
    Agreement(client, server);
    ServerAcceptsIff(client, server);
    assert Contains(ACCEPTED, ACCEPTED);
  }
}
