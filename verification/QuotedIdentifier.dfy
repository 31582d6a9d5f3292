/** Quoting of SQL identifiers, and the statements that recreate a database by name. */
module QuotedIdentifier {

  import opened Common

  const QUOTE := '"'

  /** Every quotation mark doubled. */
  function Doubled(value: string): string {
    if value == "" then ""
    else if value[0] == QUOTE then [QUOTE, QUOTE] + Doubled(value[1..])
    else [value[0]] + Doubled(value[1..])
  }

  function QuoteIdent(value: string): string {
    [QUOTE] + Doubled(value) + [QUOTE]
  }

  // ----- A reader of delimited identifiers (ISO/IEC 9075:1992, section 5.2) ---------------------

  datatype Token = Token(name: string, rest: string)

  predicate StartsWithQuote(text: string) {
    text != "" && text[0] == QUOTE
  }

  /** The body up to the closing mark: two marks stand for one, a single mark ends the identifier. */
  function ReadBody(text: string): Option<Token> {
    if text == "" then None
    else if text[0] != QUOTE then Prepend(text[0], ReadBody(text[1..]))
    else if StartsWithQuote(text[1..]) then Prepend(QUOTE, ReadBody(text[2..]))
    else Some(Token("", text[1..]))
  }

  function Prepend(c: char, read: Option<Token>): Option<Token> {
    match read
    case None => None
    case Some(token) => Some(Token([c] + token.name, token.rest))
  }

  /** An opening mark, a body of at least one character, and the closing mark. */
  function ReadDelimited(text: string): Option<Token> {
    if !StartsWithQuote(text) then None
    else
      var read := ReadBody(text[1..]);
      if read.Some? && read.value.name == "" then None else read
  }

  lemma {:induction false} BodyReadsBack(value: string, rest: string)
    requires !StartsWithQuote(rest)
    ensures ReadBody(Doubled(value) + [QUOTE] + rest) == Some(Token(value, rest))
  {
    if value == "" {
      assert (Doubled(value) + [QUOTE] + rest)[1..] == rest;
    } else {
      BodyReadsBack(value[1..], rest);
      var c, tail := value[0], Doubled(value[1..]) + [QUOTE] + rest;
      ReadFirst(c, tail);
      assert Doubled(value) + [QUOTE] + rest == Doubled([c]) + tail by {
        assert Doubled([c]) == if c == QUOTE then [QUOTE, QUOTE] else [c];
      }
      assert value == [c] + value[1..];
    }
  }

  lemma ReadFirst(c: char, tail: string)
    ensures ReadBody(Doubled([c]) + tail) == Prepend(c, ReadBody(tail))
  {
    if c == QUOTE {
      var text := [QUOTE, QUOTE] + tail;
      assert Doubled([c]) == [QUOTE, QUOTE] && text[1..][0] == QUOTE && text[2..] == tail;
    } else {
      assert Doubled([c]) == [c] && ([c] + tail)[1..] == tail;
    }
  }

  lemma {:induction false} BodyIsDoubled(text: string)
    requires ReadBody(text).Some?
    ensures var token := ReadBody(text).value;
            text == Doubled(token.name) + [QUOTE] + token.rest && !StartsWithQuote(token.rest)
  {
    var token := ReadBody(text).value;
    if text[0] != QUOTE {
      BodyIsDoubled(text[1..]);
      assert text == [text[0]] + text[1..] && token.name[1..] == ReadBody(text[1..]).value.name;
    } else if StartsWithQuote(text[1..]) {
      BodyIsDoubled(text[2..]);
      assert text == [QUOTE, QUOTE] + text[2..] && token.name[1..] == ReadBody(text[2..]).value.name;
    } else {
      assert text == [QUOTE] + text[1..];
    }
  }

  /** The reader takes exactly the quoted identifiers: it consumes all of QuoteIdent(value), no more,
      and gives the value back. The empty name has no delimited form. */
  lemma ReadsExactlyQuoted(text: string, value: string, rest: string)
    ensures ReadDelimited(text) == Some(Token(value, rest))
            <==> value != "" && text == QuoteIdent(value) + rest && !StartsWithQuote(rest)
  {
    if ReadDelimited(text) == Some(Token(value, rest)) {
      AcceptedIsQuoted(text, value, rest);
    }
    if value != "" && text == QuoteIdent(value) + rest && !StartsWithQuote(rest) {
      QuotedIsAccepted(value, rest);
    }
  }

  lemma AcceptedIsQuoted(text: string, value: string, rest: string)
    requires ReadDelimited(text) == Some(Token(value, rest))
    ensures value != "" && text == QuoteIdent(value) + rest && !StartsWithQuote(rest)
  {
    BodyIsDoubled(text[1..]);
    assert text == [QUOTE] + text[1..];
  }

  lemma QuotedIsAccepted(value: string, rest: string)
    requires value != "" && !StartsWithQuote(rest)
    ensures ReadDelimited(QuoteIdent(value) + rest) == Some(Token(value, rest))
  {
    BodyReadsBack(value, rest);
    assert (QuoteIdent(value) + rest)[1..] == Doubled(value) + [QUOTE] + rest;
  }

  lemma QuotingIsInjective(a: string, b: string)
    requires QuoteIdent(a) == QuoteIdent(b)
    ensures a == b
  {
    BodyReadsBack(a, "");
    BodyReadsBack(b, "");
    assert QuoteIdent(a)[1..] == Doubled(a) + [QUOTE] + "" && QuoteIdent(b)[1..] == Doubled(b) + [QUOTE] + "";
  }

  // ----- Statements built from a quoted name ----------------------------------------------------

  const DROP_DATABASE := "DROP DATABASE "
  const CREATE_DATABASE := "CREATE DATABASE "

  datatype Command = Drop(name: string) | Create(name: string)

  /** What the server makes of a statement: a keyword pair followed by one delimited identifier and
      nothing else. */
  function ParseCommand(statement: string): Option<Command> {
    if DROP_DATABASE <= statement then OnlyName(ReadDelimited(statement[|DROP_DATABASE|..]), name => Drop(name))
    else if CREATE_DATABASE <= statement then
      OnlyName(ReadDelimited(statement[|CREATE_DATABASE|..]), name => Create(name))
    else None
  }

  function OnlyName(read: Option<Token>, build: string -> Command): Option<Command> {
    if read.Some? && read.value.rest == "" then Some(build(read.value.name)) else None
  }

  lemma StatementNamesDatabase(name: string)
    ensures ParseCommand(DROP_DATABASE + QuoteIdent(name)) == if name == "" then None else Some(Drop(name))
    ensures ParseCommand(CREATE_DATABASE + QuoteIdent(name)) == if name == "" then None else Some(Create(name))
  {
    assert (DROP_DATABASE + QuoteIdent(name))[|DROP_DATABASE|..] == QuoteIdent(name) + "";
    assert (CREATE_DATABASE + QuoteIdent(name))[|CREATE_DATABASE|..] == QuoteIdent(name) + "";
    assert CREATE_DATABASE[0] != DROP_DATABASE[0];
    ReadsExactlyQuoted(QuoteIdent(name) + "", name, "");
    if name == "" {
      BodyReadsBack(name, "");
      assert QuoteIdent(name) + "" == QuoteIdent(name);
    }
  }

  /** The databases of a server: a name and the migrations applied to it. */
  class DatabaseServer {
    var databases: map<string, seq<string>>

    /** One query of the administration client; the result says whether it succeeded. */
    method Query(statement: string) returns (ok: bool)
      modifies this
      ensures match ParseCommand(statement)
              case None => !ok && databases == old(databases)
              case Some(Drop(name)) =>
                ok == (name in old(databases)) && databases == old(databases) - {name}
              case Some(Create(name)) =>
                ok == (name !in old(databases))
                && databases == if ok then old(databases)[name := []] else old(databases)
    {
      match ParseCommand(statement)
      case None => ok := false;
      case Some(Drop(name)) =>
        ok := name in databases;
        databases := databases - {name};
      case Some(Create(name)) =>
        ok := name !in databases;
        if ok {
          databases := databases[name := []];
        }
    }

    /** Whatever characters the name holds, exactly the database of that name is emptied or created. */
    method RecreateDatabase(databaseName: string) returns (ok: bool)
      modifies this
      ensures ok <==> databaseName != ""
      ensures databases == if ok then old(databases)[databaseName := []] else old(databases)
    {
      StatementNamesDatabase(databaseName);
      if databaseName in databases {
        ok := Query(DROP_DATABASE + QuoteIdent(databaseName));
        if !ok {
          return;
        }
      }
      ok := Query(CREATE_DATABASE + QuoteIdent(databaseName));
      assert ok ==> databases == old(databases)[databaseName := []];
    }
  }
}
