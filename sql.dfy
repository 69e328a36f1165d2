/** Prepared statements as the backend hands them to PDO: SQL text with
    named placeholders and the parameter array bound to them, and the
    database's answer as an oracle. */
module Sql {
  import opened Php

  /** `$db->prepare($sql)` followed by `$stmt->execute($params)`. */
  datatype Statement = Statement(sql: string, params: map<string, Value>)

  /** What executing a statement yields: a thrown PDOException, or the value
      of execute() with rowCount(), lastInsertId() and fetchAll(). */
  datatype Execution =
    | Raised
    | Executed(result: bool, rowCount: nat, lastInsertId: int, rows: seq<Row>)

  /** The database: its answer to a statement may depend on every statement
      sent before it, so any deterministic database fits this oracle. */
  type Database = (seq<Statement>, Statement) -> Execution

  /** Characters PDO accepts in a placeholder name after the colon. */
  predicate IsIdentChar(c: char)
  {
    'a' <= c <= 'z' || 'A' <= c <= 'Z' || '0' <= c <= '9' || c == '_'
  }

  predicate IsIdent(s: string)
  {
    |s| > 0 && forall i :: 0 <= i < |s| ==> IsIdentChar(s[i])
  }

  predicate ColonFree(s: string)
  {
    forall i :: 0 <= i < |s| ==> s[i] != ':'
  }

  /** Joining colon-free pieces with a colon-free separator adds no colon. */
  lemma {:induction false} JoinColonFree(sep: string, xs: seq<string>)
    requires ColonFree(sep)
    requires forall i :: 0 <= i < |xs| ==> ColonFree(xs[i])
    ensures ColonFree(Text.Join(sep, xs))
    decreases |xs|
  {
    if |xs| > 1 {
      JoinColonFree(sep, xs[1..]);
      var rest := Text.Join(sep, xs[1..]);
      assert ColonFree(xs[0]);
      assert Text.Join(sep, xs) == xs[0] + sep + rest;
    } else if |xs| == 1 {
      assert ColonFree(xs[0]);
    }
  }

  /** Length of the longest prefix of s made of identifier characters. */
  function IdentPrefixLength(s: string): (n: nat)
    ensures n <= |s|
    ensures forall i :: 0 <= i < n ==> IsIdentChar(s[i])
    ensures n < |s| ==> !IsIdentChar(s[n])
  {
    if |s| > 0 && IsIdentChar(s[0]) then 1 + IdentPrefixLength(s[1..]) else 0
  }

  /** The named placeholders (":name") occurring in SQL text, read left to
      right: a colon followed by the longest run of identifier characters. */
  function Placeholders(sql: string): set<string>
    decreases |sql|
  {
    if |sql| == 0 then {}
    else if sql[0] == ':' then
      var n := IdentPrefixLength(sql[1..]);
      (if n > 0 then {sql[..n + 1]} else {}) + Placeholders(sql[n + 1..])
    else Placeholders(sql[1..])
  }

  /** A statement binds exactly the placeholders its SQL uses: none is left
      unbound and none is bound in vain. */
  predicate WellBound(st: Statement)
  {
    Placeholders(st.sql) == st.params.Keys
  }

  lemma {:induction false} IdentPrefixAppend(s: string, t: string)
    requires t == [] || !IsIdentChar(t[0])
    ensures IdentPrefixLength(s + t) == IdentPrefixLength(s)
    decreases |s|
  {
    if |s| > 0 && IsIdentChar(s[0]) {
      assert (s + t)[1..] == s[1..] + t;
      IdentPrefixAppend(s[1..], t);
    }
  }

  /** Text without a colon contributes no placeholder, wherever it stands. */
  lemma {:induction false} PlaceholdersSkip(p: string, s: string)
    requires ColonFree(p)
    ensures Placeholders(p + s) == Placeholders(s)
    decreases |p|
  {
    if |p| > 0 {
      assert (p + s)[0] == p[0] && (p + s)[1..] == p[1..] + s;
      PlaceholdersSkip(p[1..], s);
    } else {
      assert p + s == s;
    }
  }

  /** Cutting SQL text before a character that ends any placeholder splits
      its placeholders accordingly. */
  lemma {:induction false} PlaceholdersAppend(s: string, t: string)
    requires t == [] || !IsIdentChar(t[0])
    ensures Placeholders(s + t) == Placeholders(s) + Placeholders(t)
    decreases |s|
  {
    if |s| == 0 {
      assert s + t == t;
    } else if s[0] == ':' {
      var st := s + t;
      assert st[0] == ':' && st[1..] == s[1..] + t;
      IdentPrefixAppend(s[1..], t);
      var n := IdentPrefixLength(s[1..]);
      assert IdentPrefixLength(st[1..]) == n;
      assert st[..n + 1] == s[..n + 1];
      assert st[n + 1..] == s[n + 1..] + t;
      PlaceholdersAppend(s[n + 1..], t);
      var first: set<string> := if n > 0 then {s[..n + 1]} else {};
      assert Placeholders(st) == first + Placeholders(st[n + 1..]);
      assert Placeholders(s) == first + Placeholders(s[n + 1..]);
    } else {
      assert (s + t)[0] == s[0] && (s + t)[1..] == s[1..] + t;
      PlaceholdersAppend(s[1..], t);
    }
  }

  /** ":name" on its own is one placeholder. */
  lemma PlaceholderAlone(name: string)
    requires IsIdent(name)
    ensures Placeholders(":" + name) == {":" + name}
  {
    var s := ":" + name;
    assert s[1..] == name;
    assert IdentPrefixLength(name) == |name| by {
      IdentPrefixAll(name);
    }
    assert s[..|name| + 1] == s && s[|name| + 1..] == [];
  }

  lemma {:induction false} IdentPrefixAll(s: string)
    requires forall i :: 0 <= i < |s| ==> IsIdentChar(s[i])
    ensures IdentPrefixLength(s) == |s|
    decreases |s|
  {
    if |s| > 0 {
      IdentPrefixAll(s[1..]);
    }
  }

  /** The placeholders of all pieces together. */
  function PlaceholdersOfAll(xs: seq<string>): set<string>
  {
    if xs == [] then {} else Placeholders(xs[0]) + PlaceholdersOfAll(xs[1..])
  }

  /** implode(', ', xs) neither creates nor merges placeholders: the comma
      ends any placeholder before it and holds no colon itself. */
  lemma {:induction false} JoinPlaceholders(xs: seq<string>)
    ensures Placeholders(Text.Join(", ", xs)) == PlaceholdersOfAll(xs)
    decreases |xs|
  {
    if |xs| == 1 {
      assert PlaceholdersOfAll(xs[1..]) == {};
    } else if |xs| > 1 {
      var rest := Text.Join(", ", xs[1..]);
      assert Text.Join(", ", xs) == xs[0] + (", " + rest);
      PlaceholdersAppend(xs[0], ", " + rest);
      PlaceholdersSkip(", ", rest);
      JoinPlaceholders(xs[1..]);
    }
  }

  /** SQL of the shape `head body tail:key`, where head and tail hold no
      colon, has the placeholders of body and `:key`. */
  lemma FramedPlaceholders(head: string, body: string, tail: string, key: string)
    requires ColonFree(head)
    requires ColonFree(tail)
    requires |tail| > 0 && !IsIdentChar(tail[0])
    requires IsIdent(key)
    ensures Placeholders(head + body + tail + ":" + key) == Placeholders(body) + {":" + key}
  {
    assert head + body + tail + ":" + key == (head + body) + (tail + (":" + key));
    PlaceholdersAppend(head + body, tail + (":" + key));
    PlaceholdersSkip(head, body);
    PlaceholdersSkip(tail, ":" + key);
    PlaceholderAlone(key);
  }

  /** SQL of the shape `head body tail`, where head and tail hold no colon
      and tail cannot extend a placeholder, has the placeholders of body. */
  lemma EnclosedPlaceholders(head: string, body: string, tail: string)
    requires ColonFree(head)
    requires ColonFree(tail)
    requires tail == [] || !IsIdentChar(tail[0])
    ensures Placeholders(head + body + tail) == Placeholders(body)
  {
    PlaceholdersAppend(head + body, tail);
    PlaceholdersSkip(head, body);
    PlaceholdersSkip(tail, []);
    assert tail + [] == tail;
  }
}
