/** The scan that refuses ambiguous planner JSON: a stack of field sets over the
    tokens of a document. */

module StrictJson {
  const MAX_NESTING := 64

  /** A string token keeps its spelling: escapes may spell one name in two ways. */
  datatype Token = OpenObject | CloseObject | OpenArray | CloseArray | Comma | Colon | Text(raw: string) | Word(raw: string)

  datatype Json =
    | Atom(word: string)
    | Name(raw: string)
    | Array(items: seq<Json>)
    | Object(members: seq<Member>)

  datatype Member = Member(name: string, value: Json)

  // ----- the tokens of a document -----

  function Tokens(json: Json): (tokens: seq<Token>)
    ensures tokens != []
    decreases json, 0
  {
    match json
    case Atom(word) => [Word(word)]
    case Name(raw) => [Text(raw)]
    case Array(items) => [OpenArray] + ItemTokens(items) + [CloseArray]
    case Object(members) => [OpenObject] + MemberTokens(members) + [CloseObject]
  }

  function ItemTokens(items: seq<Json>): seq<Token>
    decreases items, 0
  {
    if items == [] then []
    else Tokens(items[0]) + (if |items| > 1 then [Comma] else []) + ItemTokens(items[1..])
  }

  function MemberTokens(members: seq<Member>): seq<Token>
    decreases members, 0
  {
    if members == [] then []
    else [Text(members[0].name)] + ([Colon] + (Tokens(members[0].value) + FollowingTokens(members[1..])))
  }

  function FollowingTokens(members: seq<Member>): seq<Token>
    decreases members, 1
  {
    if members == [] then [] else [Comma] + MemberTokens(members)
  }

  // ----- what is refused -----

  function Nesting(json: Json): nat {
    match json
    case Array(items) => 1 + ItemsNesting(items)
    case Object(members) => 1 + MembersNesting(members)
    case _ => 0
  }

  function ItemsNesting(items: seq<Json>): nat {
    if items == [] then 0 else Larger(Nesting(items[0]), ItemsNesting(items[1..]))
  }

  function MembersNesting(members: seq<Member>): nat {
    if members == [] then 0 else Larger(Nesting(members[0].value), MembersNesting(members[1..]))
  }

  function Larger(a: nat, b: nat): nat {
    if a < b then b else a
  }

  /** Some object, at any depth, has two members of one decoded name. */
  predicate Ambiguous(decode: string -> string, json: Json) {
    match json
    case Array(items) => exists i :: 0 <= i < |items| && Ambiguous(decode, items[i])
    case Object(members) =>
      || (exists i, j :: 0 <= i < j < |members| && decode(members[i].name) == decode(members[j].name))
      || (exists i :: 0 <= i < |members| && Ambiguous(decode, members[i].value))
    case _ => false
  }

  // ----- the scan -----

  /** The names seen in an open object; an open array has none. */
  datatype Frame = Fields(names: set<string>) | Elements

  datatype Scanned = Refused | Open(stack: seq<Frame>)

  function AcceptKey(decode: string -> string, stack: seq<Frame>, token: Token, next: Token): Scanned {
    if !(token.Text? && next.Colon?) then Open(stack)
    else if stack == [] || stack[|stack| - 1].Elements? || decode(token.raw) in stack[|stack| - 1].names then Refused
    else Open(stack[..|stack| - 1] + [Fields(stack[|stack| - 1].names + {decode(token.raw)})])
  }

  function Step(decode: string -> string, stack: seq<Frame>, token: Token, next: Token): Scanned {
    match token
    case OpenObject => if |stack| + 1 > MAX_NESTING then Refused else Open(stack + [Fields({})])
    case OpenArray => if |stack| + 1 > MAX_NESTING then Refused else Open(stack + [Elements])
    case CloseObject => Open(if stack == [] then [] else stack[..|stack| - 1])
    case CloseArray => Open(if stack == [] then [] else stack[..|stack| - 1])
    case _ => AcceptKey(decode, stack, token, next)
  }

  function Next(tokens: seq<Token>): Token {
    if |tokens| > 1 then tokens[1] else Comma
  }

  function Scan(decode: string -> string, tokens: seq<Token>, stack: seq<Frame>): Scanned {
    if tokens == [] then Open(stack)
    else
      match Step(decode, stack, tokens[0], Next(tokens))
      case Refused => Refused
      case Open(after) => Scan(decode, tokens[1..], after)
  }

  method StrictPlannerJson(decode: string -> string, tokens: seq<Token>) returns (accepted: bool)
    ensures accepted <==> Scan(decode, tokens, []).Open?
  {
    var stack: seq<Frame> := [];
    var index := 0;
    while index < |tokens|
      invariant 0 <= index <= |tokens|
      invariant Scan(decode, tokens, []) == Scan(decode, tokens[index..], stack)
    {
      var token := tokens[index];
      assert tokens[index..][1..] == tokens[index + 1..];
      if token == OpenObject || token == OpenArray {
        stack := stack + [if token == OpenObject then Fields({}) else Elements];
        if |stack| > MAX_NESTING { return false; }
      } else if token == CloseObject || token == CloseArray {
        if stack != [] { stack := stack[..|stack| - 1]; }
      } else if token.Text? && index + 1 < |tokens| && tokens[index + 1] == Colon {
        if stack == [] { return false; }
        var top := stack[|stack| - 1];
        if top.Elements? || decode(token.raw) in top.names { return false; }
        stack := stack[..|stack| - 1] + [Fields(top.names + {decode(token.raw)})];
      }
      index := index + 1;
    }
    accepted := true;
  }

  // ----- the scan is exact -----

  predicate Bad(decode: string -> string, json: Json, depth: nat) {
    Ambiguous(decode, json) || depth + Nesting(json) > MAX_NESTING
  }

  /** What follows a value is never a colon. */
  predicate Ends(rest: seq<Token>) {
    rest == [] || rest[0] != Colon
  }

  lemma ScanOne(decode: string -> string, token: Token, rest: seq<Token>, stack: seq<Frame>)
    ensures Scan(decode, [token] + rest, stack) ==
            match Step(decode, stack, token, if rest == [] then Comma else rest[0])
            case Refused => Refused
            case Open(after) => Scan(decode, rest, after)
  {
    assert ([token] + rest)[1..] == rest;
  }

  lemma ObjectAmbiguous(decode: string -> string, members: seq<Member>)
    ensures Ambiguous(decode, Object(members)) <==> Repeats(decode, members, {}) || SomeAmbiguousValue(decode, members)
  {
  }

  /** A value is refused for what is wrong inside it, or leaves the stack alone. */
  lemma {:induction false} ScanValue(decode: string -> string, json: Json, rest: seq<Token>, stack: seq<Frame>)
    requires Ends(rest) && |stack| <= MAX_NESTING
    ensures Scan(decode, Tokens(json) + rest, stack) == if Bad(decode, json, |stack|) then Refused else Scan(decode, rest, stack)
    decreases json, 1
  {
    match json
    case Atom(word) => ScanOne(decode, Word(word), rest, stack);
    case Name(raw) => ScanOne(decode, Text(raw), rest, stack);
    case Array(items) => ScanArray(decode, items, rest, stack);
    case Object(members) => ScanObject(decode, members, rest, stack);
  }

  lemma {:induction false} ScanArray(decode: string -> string, items: seq<Json>, rest: seq<Token>, stack: seq<Frame>)
    requires Ends(rest) && |stack| <= MAX_NESTING
    ensures Scan(decode, Tokens(Array(items)) + rest, stack) ==
            if Bad(decode, Array(items), |stack|) then Refused else Scan(decode, rest, stack)
    decreases Array(items), 0
  {
    var close := [CloseArray] + rest;
    assert Tokens(Array(items)) + rest == [OpenArray] + (ItemTokens(items) + close);
    ScanOne(decode, OpenArray, ItemTokens(items) + close, stack);
    if |stack| < MAX_NESTING {
      var pushed := stack + [Elements];
      ScanItems(decode, items, close, pushed);
      ScanOne(decode, CloseArray, rest, pushed);
      assert pushed[..|pushed| - 1] == stack;
    }
  }

  lemma {:induction false} ScanObject(decode: string -> string, members: seq<Member>, rest: seq<Token>, stack: seq<Frame>)
    requires Ends(rest) && |stack| <= MAX_NESTING
    ensures Scan(decode, Tokens(Object(members)) + rest, stack) ==
            if Bad(decode, Object(members), |stack|) then Refused else Scan(decode, rest, stack)
    decreases Object(members), 0
  {
    var close := [CloseObject] + rest;
    assert Tokens(Object(members)) + rest == [OpenObject] + (MemberTokens(members) + close);
    ScanOne(decode, OpenObject, MemberTokens(members) + close, stack);
    ObjectAmbiguous(decode, members);
    if |stack| < MAX_NESTING { ScanMembers(decode, members, rest, stack, {}); }
  }

  predicate SomeAmbiguous(decode: string -> string, items: seq<Json>) {
    exists i :: 0 <= i < |items| && Ambiguous(decode, items[i])
  }

  lemma FirstAmbiguous(decode: string -> string, items: seq<Json>)
    requires items != []
    ensures SomeAmbiguous(decode, items) <==> Ambiguous(decode, items[0]) || SomeAmbiguous(decode, items[1..])
  {
    if i :| 0 <= i < |items| && Ambiguous(decode, items[i]) {
      assert i > 0 ==> items[1..][i - 1] == items[i];
    }
    if i :| 0 <= i < |items[1..]| && Ambiguous(decode, items[1..][i]) {
      assert items[i + 1] == items[1..][i];
    }
  }

  lemma {:induction false} ScanItems(decode: string -> string, items: seq<Json>, rest: seq<Token>, stack: seq<Frame>)
    requires Ends(rest) && |stack| <= MAX_NESTING
    ensures Scan(decode, ItemTokens(items) + rest, stack) ==
            if SomeAmbiguous(decode, items) || |stack| + ItemsNesting(items) > MAX_NESTING then Refused else Scan(decode, rest, stack)
    decreases items, 2
  {
    if items == [] {
      assert ItemTokens(items) + rest == rest;
    } else {
      var more := ItemTokens(items[1..]) + rest;
      var tail := (if |items| > 1 then [Comma] else []) + more;
      assert ItemTokens(items) + rest == Tokens(items[0]) + tail;
      FirstAmbiguous(decode, items);
      if |items| == 1 { assert items[1..] == [] && tail == rest; }
      ScanValue(decode, items[0], tail, stack);
      if |items| > 1 { ScanOne(decode, Comma, more, stack); }
      ScanItems(decode, items[1..], rest, stack);
    }
  }

  predicate Repeats(decode: string -> string, members: seq<Member>, seen: set<string>) {
    || (exists i :: 0 <= i < |members| && decode(members[i].name) in seen)
    || (exists i, j :: 0 <= i < j < |members| && decode(members[i].name) == decode(members[j].name))
  }

  lemma FirstRepeats(decode: string -> string, members: seq<Member>, seen: set<string>)
    requires members != []
    ensures Repeats(decode, members, seen) <==>
            decode(members[0].name) in seen || Repeats(decode, members[1..], seen + {decode(members[0].name)})
  {
    var tail, more := members[1..], seen + {decode(members[0].name)};
    if i :| 0 <= i < |members| && decode(members[i].name) in seen {
      assert i > 0 ==> tail[i - 1] == members[i];
    }
    if i, j :| 0 <= i < j < |members| && decode(members[i].name) == decode(members[j].name) {
      assert tail[j - 1] == members[j];
      assert i > 0 ==> tail[i - 1] == members[i];
    }
    if i :| 0 <= i < |tail| && decode(tail[i].name) in more {
      assert tail[i] == members[i + 1];
    }
    if i, j :| 0 <= i < j < |tail| && decode(tail[i].name) == decode(tail[j].name) {
      assert tail[i] == members[i + 1] && tail[j] == members[j + 1];
    }
  }

  predicate SomeAmbiguousValue(decode: string -> string, members: seq<Member>) {
    exists i :: 0 <= i < |members| && Ambiguous(decode, members[i].value)
  }

  lemma FirstAmbiguousValue(decode: string -> string, members: seq<Member>)
    requires members != []
    ensures SomeAmbiguousValue(decode, members) <==> Ambiguous(decode, members[0].value) || SomeAmbiguousValue(decode, members[1..])
  {
    if i :| 0 <= i < |members| && Ambiguous(decode, members[i].value) {
      assert i > 0 ==> members[1..][i - 1] == members[i];
    }
    if i :| 0 <= i < |members[1..]| && Ambiguous(decode, members[1..][i].value) {
      assert members[i + 1] == members[1..][i];
    }
  }

  lemma {:induction false} ScanMembers(decode: string -> string, members: seq<Member>, rest: seq<Token>, stack: seq<Frame>, seen: set<string>)
    requires Ends(rest) && |stack| < MAX_NESTING
    ensures Scan(decode, MemberTokens(members) + ([CloseObject] + rest), stack + [Fields(seen)]) ==
            if Repeats(decode, members, seen) || SomeAmbiguousValue(decode, members) || |stack| + 1 + MembersNesting(members) > MAX_NESTING
            then Refused else Scan(decode, rest, stack)
    decreases members, 2
  {
    var close := [CloseObject] + rest;
    if members == [] {
      var pushed := stack + [Fields(seen)];
      assert MemberTokens(members) + close == close;
      ScanOne(decode, CloseObject, rest, pushed);
      assert pushed[..|pushed| - 1] == stack;
    } else {
      var name, value := members[0].name, members[0].value;
      var tail := FollowingTokens(members[1..]) + close;
      FirstRepeats(decode, members, seen);
      FirstAmbiguousValue(decode, members);
      FirstMember(members, close);
      FollowingMembers(members[1..], close);
      ScanName(decode, name, value, tail, stack, seen);
      if decode(name) !in seen {
        var named := stack + [Fields(seen + {decode(name)})];
        ScanValue(decode, value, tail, named);
        if |members| > 1 {
          ScanOne(decode, Comma, MemberTokens(members[1..]) + close, named);
        } else {
          assert MemberTokens(members[1..]) + close == close;
        }
        ScanMembers(decode, members[1..], rest, stack, seen + {decode(name)});
      }
    }
  }

  lemma FollowingMembers(members: seq<Member>, close: seq<Token>)
    requires Ends(close)
    ensures FollowingTokens(members) + close == if members == [] then close else [Comma] + (MemberTokens(members) + close)
    ensures Ends(FollowingTokens(members) + close)
  {
    if members == [] {
      assert FollowingTokens(members) + close == close;
    } else {
      assert ([Comma] + MemberTokens(members)) + close == [Comma] + (MemberTokens(members) + close);
    }
  }

  lemma FirstMember(members: seq<Member>, close: seq<Token>)
    requires members != []
    ensures MemberTokens(members) + close ==
            [Text(members[0].name)] + ([Colon] + (Tokens(members[0].value) + (FollowingTokens(members[1..]) + close)))
  {
    Regroup([Text(members[0].name)], [Colon], Tokens(members[0].value), FollowingTokens(members[1..]), close);
  }

  lemma Regroup(a: seq<Token>, b: seq<Token>, c: seq<Token>, d: seq<Token>, e: seq<Token>)
    ensures (a + (b + (c + d))) + e == a + (b + (c + (d + e)))
  {
  }

  /** A member name is entered into the fields of its object, or refused. */
  lemma ScanName(decode: string -> string, name: string, value: Json, tail: seq<Token>, stack: seq<Frame>, seen: set<string>)
    ensures Scan(decode, [Text(name)] + ([Colon] + (Tokens(value) + tail)), stack + [Fields(seen)]) ==
            if decode(name) in seen then Refused
            else Scan(decode, Tokens(value) + tail, stack + [Fields(seen + {decode(name)})])
  {
    var pushed := stack + [Fields(seen)];
    var body := Tokens(value) + tail;
    ScanOne(decode, Text(name), [Colon] + body, pushed);
    assert pushed[..|pushed| - 1] == stack;
    if decode(name) !in seen {
      ScanOne(decode, Colon, body, stack + [Fields(seen + {decode(name)})]);
    }
  }

  /** Over the tokens of any document, however its names are spelled, the scan
      refuses exactly when some object repeats a decoded member name or the
      nesting exceeds sixty-four. */
  lemma RefusesExactly(decode: string -> string, json: Json)
    ensures Scan(decode, Tokens(json), []).Open? <==> !Ambiguous(decode, json) && Nesting(json) <= 64
  {
    ScanValue(decode, json, [], []);
    assert Tokens(json) + [] == Tokens(json);
    assert Scan(decode, [], []) == Open([]);
  }
}
