/** Vocabulary shared by every part of the election model: identifiers, the stored
    status codes, the error keys the plugin raises or renders, and the small list
    and string operations of Ruby that the plugin relies on. */
module Types {

  type UserId = int
  type PostId = int
  type TopicId = int
  type CategoryId = int
  /** Wall-clock time in whole seconds; `n.hours` is `n * HOUR`. */
  type Time = int

  const HOUR: int := 3600

  /** `Topic.election_statuses`: the status custom field holds one of these integers,
      but nothing stops a caller from storing any other integer. */
  const NOMINATION: int := 1
  const POLL: int := 2
  const CLOSED_POLL: int := 3

  datatype Option<+T> = None | Some(value: T) {
    function GetOr(default: T): T {
      if Some? then value else default
    }
  }

  /** The message keys under which the plugin reports failures. */
  datatype Error =
    | MoreNominations
    | IncorrectStatus
    | SetStatusFailed
    | TopicInaccessible
    | ElectionsDisabled
    | StatusNotChanged
    | SelfNominationStateNotChanged
    | SetMessageFailed
    | PositionTooShort
    | SetPositionFailed
    | CreateFailed
    | RevisorFailed
    | PostErrors
    | SeparatePoll
    | NotAuthorized
    | CategoryNotEnabled
    | ElectionCreationFailed  // the older handler's literal message
    | InvalidAccess           // Discourse::InvalidAccess
    | ParameterMissing(param: string)
    | UserNotFound(username: string)
    | WrongNumberOfArguments  // Ruby's ArgumentError
    | NoMethod                // Ruby's NoMethodError: a call on nil, or of a method nobody defines
    | Rollback                // ActiveRecord::Rollback raised outside any transaction
    | InvalidStatement        // the database refuses the generated SQL

  datatype Result<+T> = Ok(value: T) | Err(error: Error)

  /** The i18n key of each error, spelled as the plugin spells it (note the two
      `election.error.` keys of the poll jobs next to the usual `election.errors.`). */
  function Key(e: Error): string {
    match e
    case MoreNominations => "election.errors.more_nominations"
    case IncorrectStatus => "election.errors.incorrect_status"
    case SetStatusFailed => "election.errors.set_status_failed"
    case TopicInaccessible => "election.error.topic_inaccessible"
    case ElectionsDisabled => "election.error.elections_disabled"
    case StatusNotChanged => "election.errors.status_not_changed"
    case SelfNominationStateNotChanged => "election.errors.self_nomination_state_not_changed"
    case SetMessageFailed => "election.errors.set_message_failed"
    case PositionTooShort => "election.errors.position_too_short"
    case SetPositionFailed => "election.errors.set_position_failed"
    case CreateFailed => "election.errors.create_failed"
    case RevisorFailed => "election.errors.revisor_failed"
    case PostErrors => "post.errors"
    case SeparatePoll => "election.errors.seperate_poll"
    case NotAuthorized => "election.errors.not_authorized"
    case CategoryNotEnabled => "election.errors.category_not_enabled"
    case ElectionCreationFailed => "Election creation failed"
    case InvalidAccess => "Discourse::InvalidAccess"
    case ParameterMissing(p) => "param is missing or the value is empty: " + p
    case UserNotFound(u) => "election.errors.user_was_not_found"
    case WrongNumberOfArguments => "ArgumentError"
    case NoMethod => "NoMethodError"
    case Rollback => "ActiveRecord::Rollback"
    case InvalidStatement => "ActiveRecord::StatementInvalid"
  }

  // ---------------------------------------------------------------------------
  // Lists

  function Elems<T>(s: seq<T>): set<T> {
    set x | x in s
  }

  /** `Array#select` / `Array#reject`: the elements of `s` that `keep` accepts, in order. */
  function Filter<T(!new)>(s: seq<T>, keep: T -> bool): (r: seq<T>)
    ensures forall x :: x in r <==> x in s && keep(x)
    ensures |r| <= |s|
  {
    if s == [] then []
    else (if keep(s[0]) then [s[0]] else []) + Filter(s[1..], keep)
  }

  lemma AppendAssoc<T>(a: seq<T>, b: seq<T>, c: seq<T>)
    ensures a + b + c == a + (b + c)
  {
  }

  /** Filtering distributes over concatenation: the kept elements stay in their order. */
  lemma {:induction false} FilterAppend<T(!new)>(a: seq<T>, b: seq<T>, keep: T -> bool)
    ensures Filter(a + b, keep) == Filter(a, keep) + Filter(b, keep)
  {
    if a == [] {
      assert a + b == b;
    } else {
      assert (a + b)[0] == a[0];
      assert (a + b)[1..] == a[1..] + b;
      FilterAppend(a[1..], b, keep);
    }
  }

  lemma FilterOne<T(!new)>(x: T, keep: T -> bool)
    ensures Filter([x], keep) == if keep(x) then [x] else []
  {
    assert [x][1..] == [];
  }

  /** Filtering a list extended by one element. */
  lemma FilterSnoc<T(!new)>(s: seq<T>, x: T, keep: T -> bool)
    ensures Filter(s + [x], keep) == Filter(s, keep) + (if keep(x) then [x] else [])
  {
    FilterAppend(s, [x], keep);
    FilterOne(x, keep);
  }

  /** Filtering twice with the same test is filtering once. */
  lemma {:induction false} FilterIdempotent<T(!new)>(s: seq<T>, keep: T -> bool)
    ensures Filter(Filter(s, keep), keep) == Filter(s, keep)
  {
    if s != [] {
      FilterIdempotent(s[1..], keep);
      var head := if keep(s[0]) then [s[0]] else [];
      FilterAppend(head, Filter(s[1..], keep), keep);
    }
  }

  /** Filtering by one test and then another is filtering by both. */
  lemma {:induction false} FilterAnd<T(!new)>(s: seq<T>, p: T -> bool, q: T -> bool, pq: T -> bool)
    requires forall x :: pq(x) == (p(x) && q(x))
    ensures Filter(Filter(s, p), q) == Filter(s, pq)
  {
    if s != [] {
      FilterAnd(s[1..], p, q, pq);
      var head := if p(s[0]) then [s[0]] else [];
      FilterAppend(head, Filter(s[1..], p), q);
    }
  }

  /** Two tests that agree everywhere keep the same elements. */
  lemma {:induction false} FilterSameTest<T(!new)>(s: seq<T>, p: T -> bool, q: T -> bool)
    requires forall x :: p(x) == q(x)
    ensures Filter(s, p) == Filter(s, q)
  {
    if s != [] {
      FilterSameTest(s[1..], p, q);
    }
  }

  /** A test splits a list into what it keeps and what it drops, nothing lost. */
  lemma {:induction false} FilterPartition<T(!new)>(s: seq<T>, keep: T -> bool, drop: T -> bool)
    requires forall x :: drop(x) == !keep(x)
    ensures multiset(Filter(s, keep)) + multiset(Filter(s, drop)) == multiset(s)
  {
    if s != [] {
      var head, rest := s[0], s[1..];
      FilterPartition(rest, keep, drop);
      var kept, dropped := Filter(rest, keep), Filter(rest, drop);
      assert multiset(s) == multiset{head} + multiset(rest) by {
        assert s == [head] + rest;
      }
      if keep(head) {
        assert multiset(Filter(s, keep)) == multiset{head} + multiset(kept) by {
          assert Filter(s, keep) == [head] + kept;
        }
        assert Filter(s, drop) == dropped;
      } else {
        assert Filter(s, keep) == kept;
        assert multiset(Filter(s, drop)) == multiset{head} + multiset(dropped) by {
          assert Filter(s, drop) == [head] + dropped;
        }
      }
    }
  }

  /** Number of elements of `s` that satisfy `p`. */
  function Count<T>(s: seq<T>, p: T -> bool): nat {
    if s == [] then 0 else (if p(s[0]) then 1 else 0) + Count(s[1..], p)
  }

  lemma {:induction false} CountAppend<T>(a: seq<T>, b: seq<T>, p: T -> bool)
    ensures Count(a + b, p) == Count(a, p) + Count(b, p)
  {
    if a == [] {
      assert a + b == b;
    } else {
      assert (a + b)[1..] == a[1..] + b;
      CountAppend(a[1..], b, p);
    }
  }

  lemma {:induction false} CountNone<T>(s: seq<T>, p: T -> bool)
    requires forall x :: x in s ==> !p(x)
    ensures Count(s, p) == 0
  {
    if s != [] {
      CountNone(s[1..], p);
    }
  }

  /** Filtering out elements that `p` never holds of leaves the count of `p` unchanged. */
  lemma {:induction false} CountFilterKeeps<T(!new)>(s: seq<T>, keep: T -> bool, p: T -> bool)
    requires forall x :: p(x) ==> keep(x)
    ensures Count(Filter(s, keep), p) == Count(s, p)
  {
    if s != [] {
      CountFilterKeeps(s[1..], keep, p);
      var head := if keep(s[0]) then [s[0]] else [];
      CountAppend(head, Filter(s[1..], keep), p);
    }
  }

  /** Ruby's `a - b`, and `a.reject { |x| !x || b.include?(x) }` on a list without nils:
      every element of `a` that does not occur in `b`, in order. */
  function Minus<T(==,!new)>(a: seq<T>, b: seq<T>): (r: seq<T>)
    ensures forall x :: x in r <==> x in a && x !in b
    ensures |r| <= |a|
  {
    if a == [] then []
    else (if a[0] in b then [] else [a[0]]) + Minus(a[1..], b)
  }

  lemma {:induction false} MinusAppend<T(!new)>(a: seq<T>, a': seq<T>, b: seq<T>)
    ensures Minus(a + a', b) == Minus(a, b) + Minus(a', b)
  {
    if a == [] {
      assert a + a' == a';
    } else {
      assert (a + a')[0] == a[0];
      assert (a + a')[1..] == a[1..] + a';
      MinusAppend(a[1..], a', b);
    }
  }

  /** Removing elements that are not there changes nothing. */
  lemma {:induction false} MinusDisjoint<T(!new)>(a: seq<T>, b: seq<T>)
    requires forall x :: x in a ==> x !in b
    ensures Minus(a, b) == a
  {
    if a != [] {
      MinusDisjoint(a[1..], b);
      assert a == [a[0]] + a[1..];
    }
  }

  /** Removing every element of `a` leaves nothing. */
  lemma {:induction false} MinusCovered<T(!new)>(a: seq<T>, b: seq<T>)
    requires forall x :: x in a ==> x in b
    ensures Minus(a, b) == []
  {
    if a != [] {
      MinusCovered(a[1..], b);
    }
  }

  /** `Set.new(a) == Set.new(b)` holds exactly when neither list has an element the other lacks. */
  lemma SameElemsIffNoDifference<T(!new)>(a: seq<T>, b: seq<T>)
    ensures Elems(a) == Elems(b) <==> Minus(a, b) == [] && Minus(b, a) == []
  {
    if Elems(a) == Elems(b) {
      assert forall x :: x in a ==> x in Elems(b);
      assert forall x :: x in b ==> x in Elems(a);
      MinusCovered(a, b);
      MinusCovered(b, a);
    } else {
      var x :| x in Elems(a) - Elems(b) || x in Elems(b) - Elems(a);
      if x in Elems(a) - Elems(b) {
        assert x in Minus(a, b);
      } else {
        assert x in Minus(b, a);
      }
    }
  }

  /** `Array#find`: the first element that satisfies `p`. */
  function Find<T(!new)>(s: seq<T>, p: T -> bool): (r: Option<T>)
    ensures r.Some? ==> r.value in s && p(r.value)
    ensures r.None? <==> forall x :: x in s ==> !p(x)
  {
    if s == [] then None
    else if p(s[0]) then Some(s[0])
    else Find(s[1..], p)
  }

  /** `Find` returns the earliest match: everything before it fails the test. */
  lemma {:induction false} FindIsFirst<T(!new)>(s: seq<T>, p: T -> bool)
    requires Find(s, p).Some?
    ensures exists i :: 0 <= i < |s| && s[i] == Find(s, p).value && forall j :: 0 <= j < i ==> !p(s[j])
  {
    if p(s[0]) {
      assert s[0] == Find(s, p).value;
    } else {
      FindIsFirst(s[1..], p);
      var i :| 0 <= i < |s[1..]| && s[1..][i] == Find(s[1..], p).value && forall j :: 0 <= j < i ==> !p(s[1..][j]);
      assert s[i + 1] == Find(s, p).value;
      forall j | 0 <= j < i + 1 ensures !p(s[j]) {
        if j > 0 { assert s[j] == s[1..][j - 1]; }
      }
    }
  }

  /** Searching only the elements that pass the test finds the same element. */
  lemma {:induction false} FindInFiltered<T(!new)>(s: seq<T>, p: T -> bool)
    ensures Find(Filter(s, p), p) == Find(s, p)
  {
    if s != [] {
      FindInFiltered(s[1..], p);
      if p(s[0]) {
        assert Filter(s, p) == [s[0]] + Filter(s[1..], p);
      } else {
        assert Filter(s, p) == Filter(s[1..], p);
      }
    }
  }

  // ---------------------------------------------------------------------------
  // Strings

  /** The `s[i..j] == t` substring relation. */
  ghost predicate Contains(s: string, t: string) {
    exists i, j :: 0 <= i <= j <= |s| && s[i..j] == t
  }

  lemma ContainsConcat(a: string, b: string, c: string, t: string)
    requires Contains(b, t)
    ensures Contains(a + b + c, t)
  {
    var i, j :| 0 <= i <= j <= |b| && b[i..j] == t;
    assert (a + b + c)[|a| + i .. |a| + j] == t;
  }

  lemma ContainsMiddle(a: string, b: string, c: string, t: string)
    requires Contains(b, t)
    ensures Contains(a + (b + c), t)
  {
    var i, j :| 0 <= i <= j <= |b| && b[i..j] == t;
    assert (a + (b + c))[|a| + i .. |a| + j] == t;
  }

  predicate IsSpace(c: char) {
    c == ' ' || c == '\t' || c == '\n' || c == '\r' || c == '\U{000C}' || c == '\U{000B}'
  }

  /** Ruby's `blank?` on an optional string: nil, empty or only whitespace. */
  predicate Blank(s: Option<string>) {
    s.None? || forall i :: 0 <= i < |s.value| ==> IsSpace(s.value[i])
  }

  /** `String#gsub(pattern, replacement)` with a literal, non-empty pattern. */
  function ReplaceAll(s: string, pattern: string, replacement: string): string
    requires pattern != []
    decreases |s|
  {
    if |s| < |pattern| then s
    else if s[..|pattern|] == pattern then replacement + ReplaceAll(s[|pattern|..], pattern, replacement)
    else [s[0]] + ReplaceAll(s[1..], pattern, replacement)
  }

  function Upcase(c: char): char {
    if 'a' <= c <= 'z' then (c as int - 32) as char else c
  }

  function Downcase(c: char): char {
    if 'A' <= c <= 'Z' then (c as int + 32) as char else c
  }

  /** `String#capitalize` on ASCII letters: first character upper case, the rest lower case. */
  function Capitalize(s: string): (r: string)
    ensures |r| == |s|
  {
    if s == [] then [] else [Upcase(s[0])] + seq(|s| - 1, i requires 0 <= i < |s| - 1 => Downcase(s[i + 1]))
  }

  /** `Array#join(sep)`. */
  function JoinWith(xs: seq<string>, sep: string): string {
    if xs == [] then ""
    else if |xs| == 1 then xs[0]
    else xs[0] + sep + JoinWith(xs[1..], sep)
  }

  /** Joining one more piece adds a separator and the piece at the end. */
  lemma {:induction false} JoinWithSnoc(xs: seq<string>, x: string, sep: string)
    requires xs != []
    ensures JoinWith(xs + [x], sep) == JoinWith(xs, sep) + sep + x
  {
    if |xs| == 1 {
      assert xs + [x] == [xs[0], x];
    } else {
      assert (xs + [x])[1..] == xs[1..] + [x];
      JoinWithSnoc(xs[1..], x, sep);
      AppendAssoc(xs[0] + sep, JoinWith(xs[1..], sep) + sep, x);
      AppendAssoc(xs[0] + sep, JoinWith(xs[1..], sep), sep);
    }
  }

  /** Total length of a list of strings. */
  function SumLen(xs: seq<string>): nat {
    if xs == [] then 0 else |xs[0]| + SumLen(xs[1..])
  }

  /** A joined list of n > 0 pieces holds exactly n - 1 separators: its length is the
      pieces' total length plus n - 1 separator lengths. */
  lemma {:induction false} JoinWithLength(xs: seq<string>, sep: string)
    requires xs != []
    ensures |JoinWith(xs, sep)| == SumLen(xs) + (|xs| - 1) * |sep|
  {
    if |xs| > 1 {
      JoinWithLength(xs[1..], sep);
    }
  }

  /** The '|'-separated fields of `s`, empty ones included (one more than there are bars). */
  function Fields(s: string): (r: seq<string>)
    ensures |r| >= 1
  {
    if s == [] then [""]
    else
      var rest := Fields(s[1..]);
      if s[0] == '|' then [""] + rest else [[s[0]] + rest[0]] + rest[1..]
  }

  function DropTrailingEmpty(xs: seq<string>): seq<string> {
    if xs != [] && xs[|xs| - 1] == "" then DropTrailingEmpty(xs[..|xs| - 1]) else xs
  }

  /** Ruby's `String#split('|')`: the fields, with trailing empty fields removed. */
  function Split(s: string): seq<string> {
    DropTrailingEmpty(Fields(s))
  }

  lemma {:induction false} FieldsNoBar(a: string)
    requires '|' !in a
    ensures Fields(a) == [a]
  {
    if a != [] {
      FieldsNoBar(a[1..]);
      assert [a[0]] + a[1..] == a;
    }
  }

  lemma {:induction false} FieldsBar(a: string, b: string)
    requires '|' !in a
    ensures Fields(a + "|" + b) == [a] + Fields(b)
  {
    if a == [] {
      assert a + "|" + b == "|" + b;
      assert ("|" + b)[1..] == b;
    } else {
      assert (a + "|" + b)[0] == a[0];
      assert (a + "|" + b)[1..] == a[1..] + "|" + b;
      FieldsBar(a[1..], b);
      assert [a[0]] + a[1..] == a;
    }
  }

  lemma {:induction false} FieldsOfJoin(xs: seq<string>)
    requires xs != []
    requires forall k :: 0 <= k < |xs| ==> '|' !in xs[k]
    ensures Fields(JoinWith(xs, "|")) == xs
  {
    if |xs| == 1 {
      FieldsNoBar(xs[0]);
    } else {
      FieldsOfJoin(xs[1..]);
      FieldsBar(xs[0], JoinWith(xs[1..], "|"));
      assert [xs[0]] + xs[1..] == xs;
    }
  }

  /** Storing a roster with `join('|')` and reading it back with `split('|')` gives the
      roster back, provided no name is empty or contains a bar. */
  lemma SplitJoinRoundTrip(xs: seq<string>)
    requires forall k :: 0 <= k < |xs| ==> xs[k] != "" && '|' !in xs[k]
    ensures Split(JoinWith(xs, "|")) == xs
  {
    if xs != [] {
      FieldsOfJoin(xs);
      assert xs[|xs| - 1] != "";
    }
  }
}
