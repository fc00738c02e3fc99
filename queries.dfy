/**
 * DCMM_Queries (includes/class-queries.php): the NPA field detection, the WHERE-clause builder
 * with its bound values, the ORDER BY choice, and the three-step page assembly of get_subscribers.
 * The SQL engine is modelled by EvalWhere (the meaning of the built clauses and values), by the
 * engine's ordering of the subscribers for the chosen key, and by CAST(... AS UNSIGNED) as `cast`.
 */
module Queries {
  import opened Common
  import opened Store
  import Helpers

  /** The validated filter params get_subscribers receives. */
  datatype Params = Params(
    page: int, perPage: int,
    search: string, status: string,
    tags: seq<int>, tagsMode: string,
    lists: seq<int>, listsMode: string,
    npa: string, npaMin: string, npaMax: string,
    sort: string, order: string,
    npaFieldId: Option<int>)

  // ---------------------------------------------------------------- the NPA field

  /** detect_npa_field_id: the first custom field (in table order) whose lower-cased name is "npa". */
  function DetectNpaFieldId(fields: seq<CustomField>): (r: Option<int>)
    ensures r.Some? <==> exists i :: 0 <= i < |fields| && Lower(fields[i].name) == "npa"
    ensures r.Some? ==> exists i :: 0 <= i < |fields| && fields[i].id == r.value && Lower(fields[i].name) == "npa"
                          && forall j :: 0 <= j < i ==> Lower(fields[j].name) != "npa"
  {
    if fields == [] then None
    else if Lower(fields[0].name) == "npa" then Some(fields[0].id)
    else
      var r := DetectNpaFieldId(fields[1..]);
      assert forall j :: 1 <= j < |fields| ==> fields[j] == fields[1..][j - 1];
      r
  }

  /** The explicit npa_field_id when it is non-empty, otherwise the detected one. */
  function ResolveNpaField(p: Params, fields: seq<CustomField>): (r: Option<int>)
    ensures p.npaFieldId.Some? && p.npaFieldId.value != 0 ==> r == p.npaFieldId
    ensures p.npaFieldId.None? || p.npaFieldId.value == 0 ==> r == DetectNpaFieldId(fields)
  {
    if p.npaFieldId.Some? && p.npaFieldId.value != 0 then p.npaFieldId else DetectNpaFieldId(fields)
  }

  /** PHP truthiness of the resolved `$npa_field_id`. */
  predicate Resolved(field: Option<int>) { field.Some? && field.value != 0 }

  // ---------------------------------------------------------------- rows as the engine sees them

  /** A subscriber joined with its NPA value (NULL when no NPA field is resolved or no value is stored). */
  datatype Row = Row(sub: Subscriber, npa: Option<string>)

  function RowOf(t: Tables, field: Option<int>, s: Subscriber): Row
  {
    Row(s, if Resolved(field) then ValueOf(t.fieldValues, s.id, field.value) else None)
  }

  function SegmentPairs(links: seq<SegmentLink>): set<(int, int)>
  {
    set l | l in links :: (l.subscriberId, l.segmentId)
  }

  // ---------------------------------------------------------------- WHERE clauses and bound values

  /** One appended entry of `$where`; the number says how many `%d` placeholders its id list has. */
  datatype Clause =
    | SearchLike
    | StatusEquals
    | NpaEquals
    | NpaBetween
    | NpaAtLeast
    | NpaAtMost
    | TagAny(n: nat)
    | TagAll(n: nat)
    | ListAny(n: nat)
    | ListAll(n: nat)

  /** One entry of `$values`. Pattern(s) is the escaped `%s%` LIKE pattern built from the search text. */
  datatype Bound = Text(s: string) | Pattern(needle: string) | Num(n: int)

  /** The placeholders a clause contains. */
  function Arity(c: Clause): nat
  {
    match c
    case SearchLike => 3
    case StatusEquals => 1
    case NpaEquals => 1
    case NpaBetween => 2
    case NpaAtLeast => 1
    case NpaAtMost => 1
    case TagAny(n) => n
    case TagAll(n) => n + 1
    case ListAny(n) => n
    case ListAll(n) => n + 1
  }

  function Placeholders(where: seq<Clause>): nat
  {
    if where == [] then 0 else Arity(where[0]) + Placeholders(where[1..])
  }

  /** `col LIKE '%needle%'`, case-insensitively. */
  predicate LikeMatches(col: string, b: Bound)
  {
    b.Pattern? && ContainsCI(col, b.needle)
  }

  /** The distinct ids bound in `args` that the subscriber is linked to: COUNT(DISTINCT ...) of the subquery's group. */
  function HeldIds(args: seq<Bound>, sid: int, pairs: set<(int, int)>): set<int>
  {
    set k | 0 <= k < |args| && args[k].Num? && (sid, args[k].n) in pairs :: args[k].n
  }

  /** What the engine makes of one clause with its bound values, for one joined row. */
  predicate EvalClause(c: Clause, args: seq<Bound>, t: Tables, row: Row, cast: string -> int)
    requires |args| == Arity(c)
  {
    match c
    case SearchLike =>
      LikeMatches(row.sub.email, args[0]) || LikeMatches(row.sub.firstName, args[1]) || LikeMatches(row.sub.lastName, args[2])
    case StatusEquals => args[0] == Text(row.sub.status)
    case NpaEquals => row.npa.Some? && args[0] == Text(row.npa.value)
    case NpaBetween => row.npa.Some? && args[0].Num? && args[1].Num? && args[0].n <= cast(row.npa.value) <= args[1].n
    case NpaAtLeast => row.npa.Some? && args[0].Num? && cast(row.npa.value) >= args[0].n
    case NpaAtMost => row.npa.Some? && args[0].Num? && cast(row.npa.value) <= args[0].n
    case TagAny(n) => HeldIds(args, row.sub.id, TagPairs(t.subscriberTags)) != {}
    case TagAll(n) =>
      var held := HeldIds(args[..n], row.sub.id, TagPairs(t.subscriberTags));
      args[n].Num? && held != {} && |held| == args[n].n
    case ListAny(n) => HeldIds(args, row.sub.id, SegmentPairs(t.subscriberSegments)) != {}
    case ListAll(n) =>
      var held := HeldIds(args[..n], row.sub.id, SegmentPairs(t.subscriberSegments));
      args[n].Num? && held != {} && |held| == args[n].n
  }

  /** `WHERE 1=1 AND c1 AND c2 ...`, each clause consuming its placeholders from `values` in order. */
  predicate EvalWhere(where: seq<Clause>, values: seq<Bound>, t: Tables, row: Row, cast: string -> int)
    requires Placeholders(where) == |values|
    decreases |where|
  {
    where == [] ||
    (EvalClause(where[0], values[..Arity(where[0])], t, row, cast) &&
     EvalWhere(where[1..], values[Arity(where[0])..], t, row, cast))
  }

  // ---------------------------------------------------------------- what the filter means

  predicate SearchHolds(p: Params, row: Row)
  {
    p.search != "" ==>
      ContainsCI(row.sub.email, p.search) || ContainsCI(row.sub.firstName, p.search) || ContainsCI(row.sub.lastName, p.search)
  }

  predicate StatusHolds(p: Params, row: Row)
  {
    p.status != "" ==> row.sub.status == p.status
  }

  /** Exact NPA: a string comparison with the stored value. */
  predicate NpaExactHolds(p: Params, field: Option<int>, row: Row)
  {
    p.npa != "" && Resolved(field) ==> row.npa == Some(p.npa)
  }

  /** Each given bound is an inclusive limit on the unsigned cast of the stored value. */
  predicate NpaRangeHolds(p: Params, field: Option<int>, row: Row, cast: string -> int)
  {
    && (p.npaMin != "" && Resolved(field) ==> row.npa.Some? && cast(row.npa.value) >= Helpers.StrToInt(p.npaMin))
    && (p.npaMax != "" && Resolved(field) ==> row.npa.Some? && cast(row.npa.value) <= Helpers.StrToInt(p.npaMax))
  }

  /** The requested ids the subscriber holds. */
  function Held(ids: seq<int>, sid: int, pairs: set<(int, int)>): set<int>
  {
    set x | x in ids && (sid, x) in pairs
  }

  /** any: at least one requested id held; all: as many distinct requested ids held as were requested. */
  predicate MembershipHolds(ids: seq<int>, mode: string, sid: int, pairs: set<(int, int)>)
  {
    ids != [] ==>
      if mode == "all" then |Held(ids, sid, pairs)| == |ids| else Held(ids, sid, pairs) != {}
  }

  predicate Matches(p: Params, field: Option<int>, t: Tables, row: Row, cast: string -> int)
  {
    && SearchHolds(p, row)
    && StatusHolds(p, row)
    && NpaExactHolds(p, field, row)
    && NpaRangeHolds(p, field, row, cast)
    && MembershipHolds(p.tags, p.tagsMode, row.sub.id, TagPairs(t.subscriberTags))
    && MembershipHolds(p.lists, p.listsMode, row.sub.id, SegmentPairs(t.subscriberSegments))
  }

  // ---------------------------------------------------------------- lemmas about clauses

  lemma {:induction false} PlaceholdersAppend(a: seq<Clause>, b: seq<Clause>)
    ensures Placeholders(a + b) == Placeholders(a) + Placeholders(b)
  {
    if a != [] {
      assert (a + b)[1..] == a[1..] + b;
      PlaceholdersAppend(a[1..], b);
    } else {
      assert a + b == b;
    }
  }

  /** Appending clauses with their own values ANDs their meaning onto what was already there. */
  lemma {:induction false} EvalWhereAppend(w1: seq<Clause>, v1: seq<Bound>, w2: seq<Clause>, v2: seq<Bound>,
                                           t: Tables, row: Row, cast: string -> int)
    requires Placeholders(w1) == |v1| && Placeholders(w2) == |v2|
    ensures Placeholders(w1 + w2) == |v1 + v2|
    ensures EvalWhere(w1 + w2, v1 + v2, t, row, cast) ==
            (EvalWhere(w1, v1, t, row, cast) && EvalWhere(w2, v2, t, row, cast))
    decreases |w1|
  {
    PlaceholdersAppend(w1, w2);
    if w1 != [] {
      var a := Arity(w1[0]);
      assert (w1 + w2)[0] == w1[0];
      assert (w1 + w2)[1..] == w1[1..] + w2;
      assert (v1 + v2)[..a] == v1[..a];
      assert (v1 + v2)[a..] == v1[a..] + v2;
      EvalWhereAppend(w1[1..], v1[a..], w2, v2, t, row, cast);
    } else {
      assert w1 + w2 == w2 && v1 + v2 == v2;
    }
  }

  lemma EvalWhereSingle(c: Clause, args: seq<Bound>, t: Tables, row: Row, cast: string -> int)
    requires |args| == Arity(c)
    ensures Placeholders([c]) == |args|
    ensures EvalWhere([c], args, t, row, cast) == EvalClause(c, args, t, row, cast)
  {
    assert [c][1..] == [];
    assert args[..Arity(c)] == args;
  }

  function Nums(ids: seq<int>): (r: seq<Bound>)
    ensures |r| == |ids|
    ensures forall k :: 0 <= k < |ids| ==> r[k] == Num(ids[k])
  {
    seq(|ids|, k requires 0 <= k < |ids| => Num(ids[k]))
  }

  lemma HeldIdsOfNums(ids: seq<int>, sid: int, pairs: set<(int, int)>)
    ensures HeldIds(Nums(ids), sid, pairs) == Held(ids, sid, pairs)
  {
    var args := Nums(ids);
    forall x | x in Held(ids, sid, pairs) ensures x in HeldIds(args, sid, pairs) {
      var k :| 0 <= k < |ids| && ids[k] == x;
      assert args[k] == Num(x);
    }
  }

  /** The clause and values appended for an id list mean the "any"/"all" membership rule. */
  lemma MembershipClause(ids: seq<int>, mode: string, isTags: bool, t: Tables, row: Row, cast: string -> int)
    requires ids != []
    ensures var pairs := if isTags then TagPairs(t.subscriberTags) else SegmentPairs(t.subscriberSegments);
            var c := if mode == "all" then (if isTags then TagAll(|ids|) else ListAll(|ids|))
                     else (if isTags then TagAny(|ids|) else ListAny(|ids|));
            var args := if mode == "all" then Nums(ids) + [Num(|ids|)] else Nums(ids);
            |args| == Arity(c) && (EvalClause(c, args, t, row, cast) <==> MembershipHolds(ids, mode, row.sub.id, pairs))
  {
    var pairs := if isTags then TagPairs(t.subscriberTags) else SegmentPairs(t.subscriberSegments);
    HeldIdsOfNums(ids, row.sub.id, pairs);
    if mode == "all" {
      assert (Nums(ids) + [Num(|ids|)])[..|ids|] == Nums(ids);
    }
  }

  // ---------------------------------------------------------------- the builder, step by step

  /** The condition contributed by step k of the builder: search, status, exact NPA, NPA range, tags, lists. */
  predicate Condition(k: nat, p: Params, field: Option<int>, t: Tables, row: Row, cast: string -> int)
  {
    if k == 0 then SearchHolds(p, row)
    else if k == 1 then StatusHolds(p, row)
    else if k == 2 then NpaExactHolds(p, field, row)
    else if k == 3 then NpaRangeHolds(p, field, row, cast)
    else if k == 4 then MembershipHolds(p.tags, p.tagsMode, row.sub.id, TagPairs(t.subscriberTags))
    else MembershipHolds(p.lists, p.listsMode, row.sub.id, SegmentPairs(t.subscriberSegments))
  }

  /** The conjunction of the conditions of the first k steps. */
  predicate MatchesUpTo(k: nat, p: Params, field: Option<int>, t: Tables, row: Row, cast: string -> int)
  {
    k == 0 || (MatchesUpTo(k - 1, p, field, t, row, cast) && Condition(k - 1, p, field, t, row, cast))
  }

  lemma MatchesAllSteps(p: Params, field: Option<int>, t: Tables, row: Row, cast: string -> int)
    ensures MatchesUpTo(6, p, field, t, row, cast) <==> Matches(p, field, t, row, cast)
  {
    assert MatchesUpTo(1, p, field, t, row, cast) <==> Condition(0, p, field, t, row, cast);
    assert MatchesUpTo(2, p, field, t, row, cast) <==>
           MatchesUpTo(1, p, field, t, row, cast) && Condition(1, p, field, t, row, cast);
    assert MatchesUpTo(3, p, field, t, row, cast) <==>
           MatchesUpTo(2, p, field, t, row, cast) && Condition(2, p, field, t, row, cast);
    assert MatchesUpTo(4, p, field, t, row, cast) <==>
           MatchesUpTo(3, p, field, t, row, cast) && Condition(3, p, field, t, row, cast);
    assert MatchesUpTo(5, p, field, t, row, cast) <==>
           MatchesUpTo(4, p, field, t, row, cast) && Condition(4, p, field, t, row, cast);
    assert MatchesUpTo(6, p, field, t, row, cast) <==>
           MatchesUpTo(5, p, field, t, row, cast) && Condition(5, p, field, t, row, cast);
  }

  /** Clauses and values whose evaluation is exactly the first k conditions. */
  ghost predicate Denotes(where: seq<Clause>, values: seq<Bound>, p: Params, field: Option<int>, k: nat)
  {
    Placeholders(where) == |values| &&
    forall t, row, cast :: EvalWhere(where, values, t, row, cast) <==> MatchesUpTo(k, p, field, t, row, cast)
  }

  /** A piece of clauses and values whose evaluation is exactly condition k. */
  ghost predicate PieceDenotes(piece: seq<Clause>, args: seq<Bound>, p: Params, field: Option<int>, k: nat)
  {
    Placeholders(piece) == |args| &&
    forall t, row, cast :: EvalWhere(piece, args, t, row, cast) <==> Condition(k, p, field, t, row, cast)
  }

  lemma Extend(where: seq<Clause>, values: seq<Bound>, piece: seq<Clause>, args: seq<Bound>,
               p: Params, field: Option<int>, k: nat)
    requires Denotes(where, values, p, field, k)
    requires PieceDenotes(piece, args, p, field, k)
    ensures Denotes(where + piece, values + args, p, field, k + 1)
  {
    PlaceholdersAppend(where, piece);
    forall t, row, cast
      ensures EvalWhere(where + piece, values + args, t, row, cast) <==> MatchesUpTo(k + 1, p, field, t, row, cast)
    {
      EvalWhereAppend(where, values, piece, args, t, row, cast);
    }
  }

  lemma PlaceholdersSingle(c: Clause)
    ensures Placeholders([c]) == Arity(c)
  {
    assert [c][1..] == [];
  }

  /** The clauses step k of the builder appends: search, status, exact NPA, NPA range, tags, lists. */
  function PieceClauses(k: nat, p: Params, field: Option<int>): seq<Clause>
  {
    if k == 0 then (if p.search != "" then [SearchLike] else [])
    else if k == 1 then (if p.status != "" then [StatusEquals] else [])
    else if k == 2 then (if p.npa != "" && Resolved(field) then [NpaEquals] else [])
    else if k == 3 then
      (if p.npaMin != "" && p.npaMax != "" && Resolved(field) then [NpaBetween]
       else if p.npaMin != "" && Resolved(field) then [NpaAtLeast]
       else if p.npaMax != "" && Resolved(field) then [NpaAtMost]
       else [])
    else if k == 4 then
      (if p.tags == [] then [] else if p.tagsMode == "all" then [TagAll(|p.tags|)] else [TagAny(|p.tags|)])
    else
      (if p.lists == [] then [] else if p.listsMode == "all" then [ListAll(|p.lists|)] else [ListAny(|p.lists|)])
  }

  /** The values step k of the builder binds, in placeholder order. */
  function PieceValues(k: nat, p: Params, field: Option<int>): seq<Bound>
  {
    if k == 0 then (if p.search != "" then [Pattern(p.search), Pattern(p.search), Pattern(p.search)] else [])
    else if k == 1 then (if p.status != "" then [Text(p.status)] else [])
    else if k == 2 then (if p.npa != "" && Resolved(field) then [Text(p.npa)] else [])
    else if k == 3 then
      var lo, hi := Helpers.StrToInt(p.npaMin), Helpers.StrToInt(p.npaMax);
      (if p.npaMin != "" && p.npaMax != "" && Resolved(field) then [Num(lo), Num(hi)]
       else if p.npaMin != "" && Resolved(field) then [Num(lo)]
       else if p.npaMax != "" && Resolved(field) then [Num(hi)]
       else [])
    else if k == 4 then
      (if p.tags == [] then [] else if p.tagsMode == "all" then Nums(p.tags) + [Num(|p.tags|)] else Nums(p.tags))
    else
      (if p.lists == [] then [] else if p.listsMode == "all" then Nums(p.lists) + [Num(|p.lists|)] else Nums(p.lists))
  }

  /** The clauses of the first k steps, in order. */
  function BuiltClauses(k: nat, p: Params, field: Option<int>): seq<Clause>
  {
    if k == 0 then [] else BuiltClauses(k - 1, p, field) + PieceClauses(k - 1, p, field)
  }

  /** The values of the first k steps, in order. */
  function BuiltValues(k: nat, p: Params, field: Option<int>): seq<Bound>
  {
    if k == 0 then [] else BuiltValues(k - 1, p, field) + PieceValues(k - 1, p, field)
  }

  lemma BuiltNext(k: nat, p: Params, field: Option<int>)
    ensures BuiltClauses(k + 1, p, field) == BuiltClauses(k, p, field) + PieceClauses(k, p, field)
    ensures BuiltValues(k + 1, p, field) == BuiltValues(k, p, field) + PieceValues(k, p, field)
  {
  }

  /** Each step's piece evaluates to exactly that step's condition. */
  lemma PieceMeaning(k: nat, p: Params, field: Option<int>)
    requires k < 6
    ensures PieceDenotes(PieceClauses(k, p, field), PieceValues(k, p, field), p, field, k)
  {
    var piece, args := PieceClauses(k, p, field), PieceValues(k, p, field);
    if piece != [] {
      var c := piece[0];
      PlaceholdersSingle(c);
      if k >= 4 {
        var isTags := k == 4;
        var ids := if isTags then p.tags else p.lists;
        var mode := if isTags then p.tagsMode else p.listsMode;
        forall t, row, cast
          ensures EvalWhere(piece, args, t, row, cast) <==> Condition(k, p, field, t, row, cast)
        {
          MembershipClause(ids, mode, isTags, t, row, cast);
          EvalWhereSingle(c, args, t, row, cast);
        }
      } else {
        forall t, row, cast
          ensures EvalWhere(piece, args, t, row, cast) <==> Condition(k, p, field, t, row, cast)
        {
          EvalWhereSingle(c, args, t, row, cast);
        }
      }
    }
  }

  /** The first k steps together evaluate to the conjunction of the first k conditions. */
  lemma {:induction false} BuiltMeaning(k: nat, p: Params, field: Option<int>)
    requires k <= 6
    ensures Denotes(BuiltClauses(k, p, field), BuiltValues(k, p, field), p, field, k)
  {
    if k > 0 {
      BuiltMeaning(k - 1, p, field);
      PieceMeaning(k - 1, p, field);
      Extend(BuiltClauses(k - 1, p, field), BuiltValues(k - 1, p, field),
             PieceClauses(k - 1, p, field), PieceValues(k - 1, p, field), p, field, k - 1);
    }
  }

  /** All six steps together evaluate to Matches. */
  lemma BuiltMatches(p: Params, field: Option<int>)
    ensures Placeholders(BuiltClauses(6, p, field)) == |BuiltValues(6, p, field)|
    ensures forall t, row, cast :: EvalWhere(BuiltClauses(6, p, field), BuiltValues(6, p, field), t, row, cast)
                                   <==> Matches(p, field, t, row, cast)
  {
    BuiltMeaning(6, p, field);
    forall t, row, cast
      ensures EvalWhere(BuiltClauses(6, p, field), BuiltValues(6, p, field), t, row, cast) <==> Matches(p, field, t, row, cast)
    {
      MatchesAllSteps(p, field, t, row, cast);
    }
  }

  lemma BuiltClausesJoin(p: Params, field: Option<int>)
    ensures BuiltClauses(6, p, field) ==
            PieceClauses(0, p, field) + PieceClauses(1, p, field) + PieceClauses(2, p, field)
            + PieceClauses(3, p, field) + PieceClauses(4, p, field) + PieceClauses(5, p, field)
  {
    assert BuiltClauses(1, p, field) == PieceClauses(0, p, field);
    assert BuiltClauses(2, p, field) == BuiltClauses(1, p, field) + PieceClauses(1, p, field);
    assert BuiltClauses(3, p, field) == BuiltClauses(2, p, field) + PieceClauses(2, p, field);
    assert BuiltClauses(4, p, field) == BuiltClauses(3, p, field) + PieceClauses(3, p, field);
    assert BuiltClauses(5, p, field) == BuiltClauses(4, p, field) + PieceClauses(4, p, field);
  }

  lemma BuiltClausesSplit(p: Params, field: Option<int>)
    ensures BuiltClauses(6, p, field) ==
            PieceClauses(0, p, field) + PieceClauses(1, p, field) + PieceClauses(2, p, field)
            + PieceClauses(3, p, field) + PieceClauses(4, p, field) + PieceClauses(5, p, field)
    ensures BuiltValues(6, p, field) ==
            PieceValues(0, p, field) + PieceValues(1, p, field) + PieceValues(2, p, field)
            + PieceValues(3, p, field) + PieceValues(4, p, field) + PieceValues(5, p, field)
  {
    assert BuiltClauses(1, p, field) == PieceClauses(0, p, field);
    assert BuiltValues(1, p, field) == PieceValues(0, p, field);
    assert BuiltClauses(2, p, field) == BuiltClauses(1, p, field) + PieceClauses(1, p, field);
    assert BuiltValues(2, p, field) == BuiltValues(1, p, field) + PieceValues(1, p, field);
    assert BuiltClauses(3, p, field) == BuiltClauses(2, p, field) + PieceClauses(2, p, field);
    assert BuiltValues(3, p, field) == BuiltValues(2, p, field) + PieceValues(2, p, field);
    assert BuiltClauses(4, p, field) == BuiltClauses(3, p, field) + PieceClauses(3, p, field);
    assert BuiltValues(4, p, field) == BuiltValues(3, p, field) + PieceValues(3, p, field);
    assert BuiltClauses(5, p, field) == BuiltClauses(4, p, field) + PieceClauses(4, p, field);
    assert BuiltValues(5, p, field) == BuiltValues(4, p, field) + PieceValues(4, p, field);
  }

  lemma NoScalarInMembership(p: Params, field: Option<int>)
    ensures forall c: Clause :: c in PieceClauses(4, p, field) + PieceClauses(5, p, field) ==>
              c.TagAny? || c.TagAll? || c.ListAny? || c.ListAll?
  {
  }

  /** Which search, status and exact-NPA clauses the builder appends, for which inputs. */
  lemma ScalarClausePresence(p: Params, field: Option<int>)
    ensures var where := BuiltClauses(6, p, field);
      && (SearchLike in where <==> p.search != "")
      && (StatusEquals in where <==> p.status != "")
      && (NpaEquals in where <==> p.npa != "" && Resolved(field))
  {
    ScalarPrefix(p, field);
    var scalar := PieceClauses(0, p, field) + PieceClauses(1, p, field) + PieceClauses(2, p, field)
                  + PieceClauses(3, p, field);
    assert SearchLike in scalar <==> SearchLike in PieceClauses(0, p, field);
    assert StatusEquals in scalar <==> StatusEquals in PieceClauses(1, p, field);
    assert NpaEquals in scalar <==> NpaEquals in PieceClauses(2, p, field);
  }

  /** A clause other than a tag or list clause is in the WHERE list exactly when one of the first four steps added it. */
  lemma ScalarPrefix(p: Params, field: Option<int>)
    ensures forall c: Clause :: !(c.TagAny? || c.TagAll? || c.ListAny? || c.ListAll?) ==>
              (c in BuiltClauses(6, p, field) <==>
               c in PieceClauses(0, p, field) + PieceClauses(1, p, field) + PieceClauses(2, p, field) + PieceClauses(3, p, field))
  {
    BuiltClausesSplit(p, field);
    NoScalarInMembership(p, field);
  }

  /** Which NPA range clause the builder appends: BETWEEN for both bounds, one-sided for one, none without a field. */
  lemma RangeClausePresence(p: Params, field: Option<int>)
    ensures var where := BuiltClauses(6, p, field);
      && (NpaBetween in where <==> p.npaMin != "" && p.npaMax != "" && Resolved(field))
      && (NpaAtLeast in where <==> p.npaMin != "" && p.npaMax == "" && Resolved(field))
      && (NpaAtMost in where <==> p.npaMin == "" && p.npaMax != "" && Resolved(field))
  {
    ScalarPrefix(p, field);
    var scalar := PieceClauses(0, p, field) + PieceClauses(1, p, field) + PieceClauses(2, p, field)
                  + PieceClauses(3, p, field);
    assert forall c: Clause :: c.NpaBetween? || c.NpaAtLeast? || c.NpaAtMost? ==> (c in scalar <==> c in PieceClauses(3, p, field));
  }

  /** Which tag and list clauses the builder appends: none for an empty id list, whatever the mode. */
  lemma MembershipClausePresence(p: Params, field: Option<int>)
    ensures var where := BuiltClauses(6, p, field);
      && (TagAll(|p.tags|) in where <==> p.tags != [] && p.tagsMode == "all")
      && (TagAny(|p.tags|) in where <==> p.tags != [] && p.tagsMode != "all")
      && (ListAll(|p.lists|) in where <==> p.lists != [] && p.listsMode == "all")
      && (ListAny(|p.lists|) in where <==> p.lists != [] && p.listsMode != "all")
      && (p.tags == [] ==> forall c :: c in where ==> !c.TagAny? && !c.TagAll?)
      && (p.lists == [] ==> forall c :: c in where ==> !c.ListAny? && !c.ListAll?)
  {
    MembershipSuffix(p, field);
  }

  /** A tag clause is in the WHERE list exactly when the tag step added it, and a list clause when the list step did. */
  lemma MembershipSuffix(p: Params, field: Option<int>)
    ensures forall c: Clause :: c.TagAny? || c.TagAll? ==> (c in BuiltClauses(6, p, field) <==> c in PieceClauses(4, p, field))
    ensures forall c: Clause :: c.ListAny? || c.ListAll? ==> (c in BuiltClauses(6, p, field) <==> c in PieceClauses(5, p, field))
  {
    BuiltClausesJoin(p, field);
    ScalarNotMembership(p, field);
    var scalar := PieceClauses(0, p, field) + PieceClauses(1, p, field) + PieceClauses(2, p, field)
                  + PieceClauses(3, p, field);
    var w := BuiltClauses(6, p, field);
    assert w == scalar + PieceClauses(4, p, field) + PieceClauses(5, p, field);
    forall c: Clause | c.TagAny? || c.TagAll?
      ensures c in w <==> c in PieceClauses(4, p, field)
    {
      assert c !in scalar && c !in PieceClauses(5, p, field);
    }
    forall c: Clause | c.ListAny? || c.ListAll?
      ensures c in w <==> c in PieceClauses(5, p, field)
    {
      assert c !in scalar && c !in PieceClauses(4, p, field);
    }
  }

  lemma ScalarNotMembership(p: Params, field: Option<int>)
    ensures forall c: Clause ::
              (c in PieceClauses(0, p, field) + PieceClauses(1, p, field) + PieceClauses(2, p, field) + PieceClauses(3, p, field))
              ==> !c.TagAny? && !c.TagAll? && !c.ListAny? && !c.ListAll?
  {
  }

  /** The search text is bound three times, as the first values, for email, first name and last name. */
  lemma SearchBindsThrice(p: Params, field: Option<int>)
    requires p.search != ""
    ensures |BuiltClauses(6, p, field)| > 0 && BuiltClauses(6, p, field)[0] == SearchLike
    ensures |BuiltValues(6, p, field)| >= 3 &&
            BuiltValues(6, p, field)[..3] == [Pattern(p.search), Pattern(p.search), Pattern(p.search)]
  {
    BuiltClausesSplit(p, field);
  }

  // The builder's steps. Each appends its filter's clause and values when the filter is set.

  method AddSearch(where: seq<Clause>, values: seq<Bound>, p: Params) returns (w: seq<Clause>, v: seq<Bound>)
    ensures w == where + PieceClauses(0, p, None) && v == values + PieceValues(0, p, None)
  {
    w, v := where, values;
    if p.search != "" {
      w := w + [SearchLike];
      v := v + [Pattern(p.search), Pattern(p.search), Pattern(p.search)];
    }
  }

  method AddStatus(where: seq<Clause>, values: seq<Bound>, p: Params) returns (w: seq<Clause>, v: seq<Bound>)
    ensures w == where + PieceClauses(1, p, None) && v == values + PieceValues(1, p, None)
  {
    w, v := where, values;
    if p.status != "" {
      w := w + [StatusEquals];
      v := v + [Text(p.status)];
    }
  }

  method AddNpaExact(where: seq<Clause>, values: seq<Bound>, p: Params, field: Option<int>)
    returns (w: seq<Clause>, v: seq<Bound>)
    ensures w == where + PieceClauses(2, p, field) && v == values + PieceValues(2, p, field)
  {
    w, v := where, values;
    if p.npa != "" && Resolved(field) {
      w := w + [NpaEquals];
      v := v + [Text(p.npa)];
    }
  }

  method AddNpaRange(where: seq<Clause>, values: seq<Bound>, p: Params, field: Option<int>)
    returns (w: seq<Clause>, v: seq<Bound>)
    ensures w == where + PieceClauses(3, p, field) && v == values + PieceValues(3, p, field)
  {
    w, v := where, values;
    var lo, hi := Helpers.StrToInt(p.npaMin), Helpers.StrToInt(p.npaMax);
    if p.npaMin != "" && p.npaMax != "" && Resolved(field) {
      w := w + [NpaBetween];
      v := v + [Num(lo), Num(hi)];
    } else if p.npaMin != "" && Resolved(field) {
      w := w + [NpaAtLeast];
      v := v + [Num(lo)];
    } else if p.npaMax != "" && Resolved(field) {
      w := w + [NpaAtMost];
      v := v + [Num(hi)];
    }
  }

  /** The tags step (isTags) or the lists step: IN (...) for "any", with HAVING COUNT(DISTINCT ...) = n for "all". */
  method AddMembership(where: seq<Clause>, values: seq<Bound>, p: Params, isTags: bool)
    returns (w: seq<Clause>, v: seq<Bound>)
    ensures w == where + PieceClauses(if isTags then 4 else 5, p, None)
    ensures v == values + PieceValues(if isTags then 4 else 5, p, None)
  {
    w, v := where, values;
    var ids, mode := if isTags then p.tags else p.lists, if isTags then p.tagsMode else p.listsMode;
    if ids != [] {
      if mode == "all" {
        w := w + [if isTags then TagAll(|ids|) else ListAll(|ids|)];
        v := v + (Nums(ids) + [Num(|ids|)]);
      } else {
        w := w + [if isTags then TagAny(|ids|) else ListAny(|ids|)];
        v := v + Nums(ids);
      }
    }
  }

  /**
   * The WHERE-clause builder of get_subscribers: each filter appends its clause together with its
   * bound values. Whatever the inputs, placeholders and values stay in lockstep, and the conjunction
   * the engine evaluates is exactly the filter's meaning.
   */
  method BuildWhere(p: Params, field: Option<int>) returns (where: seq<Clause>, values: seq<Bound>)
    ensures where == BuiltClauses(6, p, field) && values == BuiltValues(6, p, field)
    ensures Placeholders(where) == |values|
    ensures forall t, row, cast :: EvalWhere(where, values, t, row, cast) <==> Matches(p, field, t, row, cast)
  {
    where, values := [], [];
    where, values := AddSearch(where, values, p);
    BuiltNext(0, p, field);
    where, values := AddStatus(where, values, p);
    BuiltNext(1, p, field);
    where, values := AddNpaExact(where, values, p, field);
    BuiltNext(2, p, field);
    where, values := AddNpaRange(where, values, p, field);
    BuiltNext(3, p, field);
    where, values := AddMembership(where, values, p, true);
    BuiltNext(4, p, field);
    where, values := AddMembership(where, values, p, false);
    BuiltNext(5, p, field);
    BuiltMatches(p, field);
  }

  // ---------------------------------------------------------------- tag and list modes

  lemma {:induction false} SubsetCard<T>(a: set<T>, b: set<T>)
    requires a <= b
    ensures |a| <= |b|
    ensures a != b ==> |a| < |b|
    decreases |b|
  {
    if b != {} {
      var x :| x in b;
      SubsetCard(a - {x}, b - {x});
      if x in a {
        assert a == (a - {x}) + {x};
      } else {
        assert a - {x} == a;
        assert |b| == |b - {x}| + 1;
      }
    }
  }

  lemma {:induction false} SetOfSeqBound<T>(s: seq<T>)
    ensures |set x | x in s| <= |s|
  {
    if s != [] {
      SetOfSeqBound(s[1..]);
      assert (set x | x in s) == {s[0]} + (set x | x in s[1..]);
    }
  }

  lemma {:induction false} SetOfDistinctSeq<T>(s: seq<T>)
    requires NoDuplicates(s)
    ensures |set x | x in s| == |s|
  {
    if s != [] {
      assert NoDuplicates(s[1..]) by {
        forall i, j | 0 <= i < j < |s[1..]| ensures s[1..][i] != s[1..][j] {
          assert s[1..][i] == s[i + 1] && s[1..][j] == s[j + 1];
        }
      }
      SetOfDistinctSeq(s[1..]);
      assert (set x | x in s) == {s[0]} + (set x | x in s[1..]);
      assert s[0] !in s[1..] by {
        forall k | 0 <= k < |s[1..]| ensures s[1..][k] != s[0] {
          assert s[1..][k] == s[k + 1];
        }
      }
    }
  }

  /** "all" with a repeated id can never match: the distinct ids held are fewer than the ids requested. */
  lemma AllModeWithDuplicatesMatchesNobody(ids: seq<int>, sid: int, pairs: set<(int, int)>)
    requires !NoDuplicates(ids)
    ensures !MembershipHolds(ids, "all", sid, pairs)
  {
    var i, j :| 0 <= i < j < |ids| && ids[i] == ids[j];
    var without := ids[..j] + ids[j + 1..];
    forall x | x in ids ensures x in without {
      var k :| 0 <= k < |ids| && ids[k] == x;
      if k < j { assert without[k] == x; }
      else if k == j { assert without[i] == x; }
      else { assert without[k - 1] == x; }
    }
    SubsetCard(Held(ids, sid, pairs), set x | x in without);
    SetOfSeqBound(without);
  }

  /** Without repeated ids, "all" means every requested id is held; extra memberships never disqualify. */
  lemma AllModeMeansEvery(ids: seq<int>, sid: int, pairs: set<(int, int)>)
    requires NoDuplicates(ids)
    ensures MembershipHolds(ids, "all", sid, pairs) <==> forall x :: x in ids ==> (sid, x) in pairs
  {
    var held := Held(ids, sid, pairs);
    var all := set x | x in ids;
    SetOfDistinctSeq(ids);
    SubsetCard(held, all);
    if MembershipHolds(ids, "all", sid, pairs) && ids != [] {
      assert held == all;
      forall x | x in ids ensures (sid, x) in pairs {
        assert x in all;
      }
    }
    if forall x :: x in ids ==> (sid, x) in pairs {
      assert held == all;
    }
  }

  /** "any" (every mode other than "all") means at least one requested id is held. */
  lemma AnyModeMeansSome(ids: seq<int>, mode: string, sid: int, pairs: set<(int, int)>)
    requires mode != "all" && ids != []
    ensures MembershipHolds(ids, mode, sid, pairs) <==> exists x :: x in ids && (sid, x) in pairs
  {
    if exists x :: x in ids && (sid, x) in pairs {
      var x :| x in ids && (sid, x) in pairs;
      assert x in Held(ids, sid, pairs);
    }
  }

  /** An empty id list filters nothing, whatever the mode. */
  lemma EmptyIdsIgnoreMode(mode: string, sid: int, pairs: set<(int, int)>)
    ensures MembershipHolds([], mode, sid, pairs)
  {
  }

  // ---------------------------------------------------------------- ORDER BY

  /** The ORDER BY key: the unsigned cast of the NPA value, or a column of the subscribers table. */
  datatype SortKey = NpaNumeric | Column(name: string)

  const SubscriberColumns: seq<string> := ["email", "first_name", "last_name", "status", "created_at"]

  /**
   * npa with a resolved field sorts by the numeric cast, npa without one falls back to created_at,
   * any other (allow-listed) sort names its column. The key never names the virtual npa column.
   */
  function OrderKey(p: Params, field: Option<int>): (k: SortKey)
    ensures k == NpaNumeric <==> p.sort == "npa" && Resolved(field)
    ensures k.Column? ==> k.name != "npa"
    ensures k.Column? && p.sort in Helpers.AllowedSorts ==> k.name in SubscriberColumns
    ensures k.Column? && p.sort != "npa" ==> k.name == p.sort
  {
    if p.sort == "npa" && Resolved(field) then NpaNumeric
    else if p.sort == "npa" then Column("created_at")
    else Column(p.sort)
  }

  /** npa without a resolved field sorts by created_at. */
  lemma NpaSortFallback(p: Params, field: Option<int>)
    requires p.sort == "npa" && !Resolved(field)
    ensures OrderKey(p, field) == Column("created_at")
  {
  }

  /** A row's value under a sort key; SQL NULL sorts first in ascending order. */
  datatype SortValue = Null | Str(s: string) | Unsigned(n: int)

  function SortValueOf(k: SortKey, row: Row, cast: string -> int): SortValue
  {
    match k
    case NpaNumeric => if row.npa.Some? then Unsigned(cast(row.npa.value)) else Null
    case Column(c) =>
      if c == "email" then Str(row.sub.email)
      else if c == "first_name" then Str(row.sub.firstName)
      else if c == "last_name" then Str(row.sub.lastName)
      else if c == "status" then Str(row.sub.status)
      else if c == "created_at" then Str(row.sub.createdAt)
      else Null
  }

  /** Binary (code point) string order. */
  predicate StrLe(a: string, b: string)
  {
    a == [] || (b != [] && (a[0] < b[0] || (a[0] == b[0] && StrLe(a[1..], b[1..]))))
  }

  predicate ValueLe(a: SortValue, b: SortValue)
  {
    match (a, b)
    case (Null, _) => true
    case (_, Null) => false
    case (Unsigned(x), Unsigned(y)) => x <= y
    case (Unsigned(_), Str(_)) => true
    case (Str(_), Unsigned(_)) => false
    case (Str(x), Str(y)) => StrLe(x, y)
  }

  /** a may come before b under ORDER BY ... order ("ASC" or "DESC"). */
  predicate InOrder(a: SortValue, b: SortValue, order: string)
  {
    if order == "ASC" then ValueLe(a, b) else ValueLe(b, a)
  }

  /** The joined row of the subscriber with this id; None when there is no such subscriber. */
  function RowById(t: Tables, field: Option<int>, id: int): Option<Row>
  {
    match SubscriberById(t.subscribers, id)
    case None => None
    case Some(s) => Some(RowOf(t, field, s))
  }

  /**
   * The engine's ordering of the subscribers table under ORDER BY key order: every subscriber id
   * exactly once, in key order; rows with equal keys may come in any order.
   */
  ghost predicate SortedBy(t: Tables, ordered: seq<int>, k: SortKey, order: string, field: Option<int>, cast: string -> int)
  {
    IsOrdering(t, ordered) && KeyOrdered(t, ordered, k, order, field, cast)
  }

  // ---------------------------------------------------------------- the engine: selection, LIMIT/OFFSET, COUNT

  /** The rows of the subscribers in `ordered` that `keep` accepts, in that order. */
  function Filter(t: Tables, field: Option<int>, ordered: seq<int>, keep: Row -> bool): (rows: seq<Row>)
    ensures |rows| <= |ordered|
  {
    if ordered == [] then []
    else
      var rest := Filter(t, field, ordered[1..], keep);
      match RowById(t, field, ordered[0])
      case None => rest
      case Some(row) => if keep(row) then [row] + rest else rest
  }

  /**
   * The main query: WHERE with the filter values, then LIMIT and OFFSET bound from the last two
   * values. None is the error the engine raises for a negative LIMIT or OFFSET.
   */
  function MainQuery(t: Tables, where: seq<Clause>, queryValues: seq<Bound>, field: Option<int>, ordered: seq<int>,
                     cast: string -> int): Option<seq<Row>>
    requires |queryValues| == Placeholders(where) + 2
  {
    var values := queryValues[..|queryValues| - 2];
    var limit, offset := queryValues[|queryValues| - 2], queryValues[|queryValues| - 1];
    if !limit.Num? || !offset.Num? || limit.n < 0 || offset.n < 0 then None
    else Some(Window(Filter(t, field, ordered, row => EvalWhere(where, values, t, row, cast)), limit.n, offset.n))
  }

  /** SELECT COUNT(DISTINCT s.id) ... WHERE, over the whole table. */
  function CountQuery(t: Tables, where: seq<Clause>, values: seq<Bound>, field: Option<int>, cast: string -> int): nat
    requires Placeholders(where) == |values|
  {
    |set s | s in t.subscribers && EvalWhere(where, values, t, RowOf(t, field, s), cast) :: s.id|
  }

  // ---------------------------------------------------------------- the page, as specified

  /** The subscribers matching the filter, in the engine's order. */
  function Listing(t: Tables, p: Params, field: Option<int>, ordered: seq<int>, cast: string -> int): seq<Row>
  {
    Filter(t, field, ordered, MatchesOf(t, p, field, cast))
  }

  /** Matches as the row test of a filter. */
  function MatchesOf(t: Tables, p: Params, field: Option<int>, cast: string -> int): Row -> bool
  {
    row => Matches(p, field, t, row, cast)
  }

  /** The ids of all subscribers matching the filter. */
  function MatchingIds(t: Tables, p: Params, field: Option<int>, cast: string -> int): set<int>
  {
    set s | s in t.subscribers && Matches(p, field, t, RowOf(t, field, s), cast) :: s.id
  }

  function Offset(p: Params): int
  {
    (p.page - 1) * p.perPage
  }

  /** A returned item: the subscriber row, its NPA value and its tags and lists. */
  datatype Item = Item(id: int, email: string, firstName: string, lastName: string, status: string,
                       createdAt: string, npa: Option<string>, tags: seq<Named>, lists: seq<Named>)

  function TagLinkPairs(links: seq<TagLink>): (r: seq<(int, int)>)
    ensures |r| == |links|
    ensures forall i :: 0 <= i < |links| ==> r[i] == (links[i].subscriberId, links[i].tagId)
  {
    seq(|links|, i requires 0 <= i < |links| => (links[i].subscriberId, links[i].tagId))
  }

  function SegmentLinkPairs(links: seq<SegmentLink>): (r: seq<(int, int)>)
    ensures |r| == |links|
    ensures forall i :: 0 <= i < |links| ==> r[i] == (links[i].subscriberId, links[i].segmentId)
  {
    seq(|links|, i requires 0 <= i < |links| => (links[i].subscriberId, links[i].segmentId))
  }

  /** The catalogue entries linked to one subscriber, in link order; links to missing entries are dropped. */
  function EntriesOf(links: seq<(int, int)>, catalogue: seq<Named>, sid: int): seq<Named>
  {
    if links == [] then []
    else
      var l := links[|links| - 1];
      var name := NameOf(catalogue, l.1);
      EntriesOf(links[..|links| - 1], catalogue, sid) + (if l.0 == sid && name.Some? then [Named(l.1, name.value)] else [])
  }

  function ItemOf(t: Tables, row: Row): Item
  {
    Item(row.sub.id, row.sub.email, row.sub.firstName, row.sub.lastName, row.sub.status, row.sub.createdAt, row.npa,
         EntriesOf(TagLinkPairs(t.subscriberTags), t.tags, row.sub.id),
         EntriesOf(SegmentLinkPairs(t.subscriberSegments), t.segments, row.sub.id))
  }

  function ItemsOf(t: Tables, rows: seq<Row>): (items: seq<Item>)
    ensures |items| == |rows|
    ensures forall i :: 0 <= i < |rows| ==> items[i] == ItemOf(t, rows[i])
  {
    seq(|rows|, i requires 0 <= i < |rows| => ItemOf(t, rows[i]))
  }

  /** The requested page: the window of the listing at the page's offset, or nothing for a negative LIMIT/OFFSET. */
  function PageOf(t: Tables, p: Params, field: Option<int>, ordered: seq<int>, cast: string -> int): seq<Item>
  {
    if p.perPage < 0 || Offset(p) < 0 then []
    else ItemsOf(t, Window(Listing(t, p, field, ordered, cast), p.perPage, Offset(p)))
  }

  // ---------------------------------------------------------------- steps 2 and 3: grouping

  /** The joined rows (subscriber id, catalogue entry) of the links of the listed subscribers, in link order. */
  function JoinRows(links: seq<(int, int)>, catalogue: seq<Named>, ids: set<int>): seq<(int, Named)>
  {
    if links == [] then []
    else
      var l := links[|links| - 1];
      var name := NameOf(catalogue, l.1);
      JoinRows(links[..|links| - 1], catalogue, ids) + (if l.0 in ids && name.Some? then [(l.0, Named(l.1, name.value))] else [])
  }

  /** The entries of one subscriber's joined rows, in row order. */
  function GroupOf(rows: seq<(int, Named)>, sid: int): seq<Named>
  {
    if rows == [] then []
    else GroupOf(rows[..|rows| - 1], sid) + (if rows[|rows| - 1].0 == sid then [rows[|rows| - 1].1] else [])
  }

  /** `$map[$sid] ?? []`. */
  function GetOrEmpty(m: map<int, seq<Named>>, sid: int): seq<Named>
  {
    if sid in m then m[sid] else []
  }

  /** The foreach that appends each joined row to its subscriber's entry of the map. */
  method GroupBySubscriber(rows: seq<(int, Named)>) returns (m: map<int, seq<Named>>)
    ensures forall sid :: GetOrEmpty(m, sid) == GroupOf(rows, sid)
    ensures forall sid :: sid in m ==> exists i :: 0 <= i < |rows| && rows[i].0 == sid
  {
    m := map[];
    var i := 0;
    while i < |rows|
      invariant 0 <= i <= |rows|
      invariant forall sid :: GetOrEmpty(m, sid) == GroupOf(rows[..i], sid)
      invariant forall sid :: sid in m ==> exists j :: 0 <= j < i && rows[j].0 == sid
    {
      var sid := rows[i].0;
      m := m[sid := GetOrEmpty(m, sid) + [rows[i].1]];
      assert rows[..i + 1][..i] == rows[..i];
      i := i + 1;
    }
    assert rows[..i] == rows;
  }

  /** Grouping the joined rows gives each listed subscriber exactly its own entries, in link order. */
  lemma {:induction false} GroupOfJoin(links: seq<(int, int)>, catalogue: seq<Named>, ids: set<int>, sid: int)
    requires sid in ids
    ensures GroupOf(JoinRows(links, catalogue, ids), sid) == EntriesOf(links, catalogue, sid)
  {
    if links != [] {
      var l := links[|links| - 1];
      var name := NameOf(catalogue, l.1);
      var front := JoinRows(links[..|links| - 1], catalogue, ids);
      GroupOfJoin(links[..|links| - 1], catalogue, ids, sid);
      if l.0 in ids && name.Some? {
        var rows := front + [(l.0, Named(l.1, name.value))];
        assert rows[..|rows| - 1] == front;
      } else {
        assert front + [] == front;
      }
    }
  }

  // ---------------------------------------------------------------- get_subscribers

  /**
   * get_subscribers: resolve the NPA field, build the WHERE clauses, choose the ORDER BY, run the
   * main query with LIMIT/OFFSET and the COUNT query, then fetch and group the page's tags and
   * lists and assemble one item per row. `engineOrder(key, order)` is the engine's ordering of the
   * subscribers table under ORDER BY key order.
   */
  method GetSubscribers(t: Tables, p: Params, engineOrder: (SortKey, string) -> seq<int>, cast: string -> int)
    returns (items: seq<Item>, total: int)
    ensures var field := ResolveNpaField(p, t.customFields);
            total == |MatchingIds(t, p, field, cast)|
    ensures var field := ResolveNpaField(p, t.customFields);
            items == PageOf(t, p, field, engineOrder(OrderKey(p, field), p.order), cast)
  {
    var field := ResolveNpaField(p, t.customFields);
    var where, values := BuildWhere(p, field);
    var ordered := engineOrder(OrderKey(p, field), p.order);

    // Query 1: the page's rows; the engine's error for a negative LIMIT/OFFSET gives none.
    var limit := p.perPage;
    var offset := (p.page - 1) * limit;
    var queryValues := values + [Num(limit), Num(offset)];
    var result := MainQuery(t, where, queryValues, field, ordered, cast);
    var rows := if result.Some? then result.value else [];
    MainQueryIsWindow(t, p, field, where, values, ordered, cast);

    // Query 1b: the total.
    total := CountQuery(t, where, values, field, cast);
    CountIsTotal(t, p, field, where, values, cast);

    if rows == [] {
      return [], total;
    }

    // Queries 2 and 3: the tags and lists of the page's subscribers, grouped by subscriber.
    var ids := set r | r in rows :: r.sub.id;
    var tagRows := JoinRows(TagLinkPairs(t.subscriberTags), t.tags, ids);
    var tagsMap := GroupBySubscriber(tagRows);
    var listRows := JoinRows(SegmentLinkPairs(t.subscriberSegments), t.segments, ids);
    var listsMap := GroupBySubscriber(listRows);
    forall sid | sid in ids
      ensures GetOrEmpty(tagsMap, sid) == EntriesOf(TagLinkPairs(t.subscriberTags), t.tags, sid)
      ensures GetOrEmpty(listsMap, sid) == EntriesOf(SegmentLinkPairs(t.subscriberSegments), t.segments, sid)
    {
      GroupOfJoin(TagLinkPairs(t.subscriberTags), t.tags, ids, sid);
      GroupOfJoin(SegmentLinkPairs(t.subscriberSegments), t.segments, ids, sid);
    }

    items := AssembleItems(t, rows, ids, tagsMap, listsMap);
  }

  /** The main query with the builder's clauses and [limit, offset] appended is the page's window of the listing. */
  lemma MainQueryIsWindow(t: Tables, p: Params, field: Option<int>, where: seq<Clause>, values: seq<Bound>,
                          ordered: seq<int>, cast: string -> int)
    requires Placeholders(where) == |values|
    requires forall t, row, cast :: EvalWhere(where, values, t, row, cast) <==> Matches(p, field, t, row, cast)
    ensures var queryValues := values + [Num(p.perPage), Num((p.page - 1) * p.perPage)];
            |queryValues| == Placeholders(where) + 2 &&
            var result := MainQuery(t, where, queryValues, field, ordered, cast);
            (result.Some? <==> p.perPage >= 0 && Offset(p) >= 0) &&
            (result.Some? ==> result.value == Window(Listing(t, p, field, ordered, cast), p.perPage, Offset(p)))
  {
    var queryValues := values + [Num(p.perPage), Num((p.page - 1) * p.perPage)];
    assert queryValues[..|queryValues| - 2] == values;
    FilterSameKeep(t, field, ordered, row => EvalWhere(where, values, t, row, cast), MatchesOf(t, p, field, cast));
  }

  /** The COUNT query with the builder's clauses and values counts the matching subscribers. */
  lemma CountIsTotal(t: Tables, p: Params, field: Option<int>, where: seq<Clause>, values: seq<Bound>, cast: string -> int)
    requires Placeholders(where) == |values|
    requires forall t, row, cast :: EvalWhere(where, values, t, row, cast) <==> Matches(p, field, t, row, cast)
    ensures CountQuery(t, where, values, field, cast) == |MatchingIds(t, p, field, cast)|
  {
    assert (set s | s in t.subscribers && EvalWhere(where, values, t, RowOf(t, field, s), cast) :: s.id)
           == MatchingIds(t, p, field, cast);
  }

  /** The foreach over the main rows: one item per row, in row order, with its grouped tags and lists. */
  method AssembleItems(t: Tables, rows: seq<Row>, ids: set<int>, tagsMap: map<int, seq<Named>>,
                       listsMap: map<int, seq<Named>>) returns (items: seq<Item>)
    requires forall r :: r in rows ==> r.sub.id in ids
    requires forall sid :: sid in ids ==> GetOrEmpty(tagsMap, sid) == EntriesOf(TagLinkPairs(t.subscriberTags), t.tags, sid)
    requires forall sid :: sid in ids ==>
               GetOrEmpty(listsMap, sid) == EntriesOf(SegmentLinkPairs(t.subscriberSegments), t.segments, sid)
    ensures items == ItemsOf(t, rows)
  {
    items := [];
    var i := 0;
    while i < |rows|
      invariant 0 <= i <= |rows|
      invariant items == ItemsOf(t, rows[..i])
    {
      var r := rows[i];
      items := items + [Item(r.sub.id, r.sub.email, r.sub.firstName, r.sub.lastName, r.sub.status, r.sub.createdAt,
                             r.npa, GetOrEmpty(tagsMap, r.sub.id), GetOrEmpty(listsMap, r.sub.id))];
      i := i + 1;
    }
    assert rows[..i] == rows;
  }

  lemma {:induction false} FilterSameKeep(t: Tables, field: Option<int>, ordered: seq<int>, keep1: Row -> bool, keep2: Row -> bool)
    requires forall row :: keep1(row) == keep2(row)
    ensures Filter(t, field, ordered, keep1) == Filter(t, field, ordered, keep2)
  {
    if ordered != [] {
      FilterSameKeep(t, field, ordered[1..], keep1, keep2);
    }
  }

  // ---------------------------------------------------------------- what the page is

  /** `ordered` lists every subscriber id exactly once. */
  ghost predicate IsOrdering(t: Tables, ordered: seq<int>)
  {
    NoDuplicates(ordered) && forall id :: id in ordered <==> id in IdsOf(t.subscribers)
  }

  lemma {:induction false} FilterFrom(t: Tables, field: Option<int>, ordered: seq<int>, keep: Row -> bool, row: Row)
    requires row in Filter(t, field, ordered, keep)
    ensures keep(row)
    ensures exists j :: 0 <= j < |ordered| && RowById(t, field, ordered[j]) == Some(row)
  {
    var rest := Filter(t, field, ordered[1..], keep);
    if row in rest {
      FilterFrom(t, field, ordered[1..], keep, row);
      var j :| 0 <= j < |ordered[1..]| && RowById(t, field, ordered[1..][j]) == Some(row);
      assert ordered[j + 1] == ordered[1..][j];
    } else {
      assert RowById(t, field, ordered[0]) == Some(row);
    }
  }

  lemma {:induction false} FilterTo(t: Tables, field: Option<int>, ordered: seq<int>, keep: Row -> bool, j: int)
    requires 0 <= j < |ordered| && RowById(t, field, ordered[j]).Some? && keep(RowById(t, field, ordered[j]).value)
    ensures RowById(t, field, ordered[j]).value in Filter(t, field, ordered, keep)
  {
    if j > 0 {
      assert ordered[1..][j - 1] == ordered[j];
      FilterTo(t, field, ordered[1..], keep, j - 1);
    }
  }

  lemma RowByIdOfMember(t: Tables, field: Option<int>, s: Subscriber)
    requires UniqueSubscriberIds(t.subscribers) && s in t.subscribers
    ensures RowById(t, field, s.id) == Some(RowOf(t, field, s))
  {
    var found := SubscriberById(t.subscribers, s.id);
    var i :| 0 <= i < |t.subscribers| && t.subscribers[i] == s;
    var k :| 0 <= k < |t.subscribers| && t.subscribers[k] == found.value;
    assert k == i;
  }

  /** The listing holds exactly the matching subscribers' rows. */
  lemma ListingMembers(t: Tables, p: Params, field: Option<int>, ordered: seq<int>, cast: string -> int, s: Subscriber)
    requires Valid(t) && IsOrdering(t, ordered) && s in t.subscribers
    ensures RowOf(t, field, s) in Listing(t, p, field, ordered, cast) <==> Matches(p, field, t, RowOf(t, field, s), cast)
  {
    var keep := MatchesOf(t, p, field, cast);
    RowByIdOfMember(t, field, s);
    if Matches(p, field, t, RowOf(t, field, s), cast) {
      assert s.id in IdsOf(t.subscribers);
      var j :| 0 <= j < |ordered| && ordered[j] == s.id;
      FilterTo(t, field, ordered, keep, j);
    }
    if RowOf(t, field, s) in Listing(t, p, field, ordered, cast) {
      FilterFrom(t, field, ordered, keep, RowOf(t, field, s));
    }
  }

  /** Every listed row is a subscriber's row that matches. */
  lemma ListingSound(t: Tables, p: Params, field: Option<int>, ordered: seq<int>, cast: string -> int, row: Row)
    requires row in Listing(t, p, field, ordered, cast)
    ensures row.sub in t.subscribers && row == RowOf(t, field, row.sub)
    ensures Matches(p, field, t, row, cast)
  {
    FilterFrom(t, field, ordered, MatchesOf(t, p, field, cast), row);
  }

  /** The listing follows the ORDER BY key. */
  lemma {:induction false} ListingSorted(t: Tables, p: Params, field: Option<int>, ordered: seq<int>, cast: string -> int,
                                         k: SortKey, order: string)
    requires SortedBy(t, ordered, k, order, field, cast)
    ensures var rows := Listing(t, p, field, ordered, cast);
            forall i, j :: 0 <= i < j < |rows| ==> InOrder(SortValueOf(k, rows[i], cast), SortValueOf(k, rows[j], cast), order)
  {
    FilterSorted(t, field, ordered, MatchesOf(t, p, field, cast), k, order, cast);
    var rows := Listing(t, p, field, ordered, cast);
    assert rows == Filter(t, field, ordered, MatchesOf(t, p, field, cast));
  }

  /** Every pair of positions of `ordered` is in key order (the ordering part of SortedBy). */
  ghost predicate KeyOrdered(t: Tables, ordered: seq<int>, k: SortKey, order: string, field: Option<int>, cast: string -> int)
  {
    forall i, j :: 0 <= i < j < |ordered| && RowById(t, field, ordered[i]).Some? && RowById(t, field, ordered[j]).Some? ==>
      InOrder(SortValueOf(k, RowById(t, field, ordered[i]).value, cast),
              SortValueOf(k, RowById(t, field, ordered[j]).value, cast), order)
  }

  /**
   * Two rows of a selection come from two subscribers of the ordering, at positions in the same
   * order: selection never reorders rows.
   */
  lemma {:induction false} FilterPairs(t: Tables, field: Option<int>, ordered: seq<int>, keep: Row -> bool,
                                       rows: seq<Row>, i: nat, j: nat)
    returns (a: nat, b: nat)
    requires rows == Filter(t, field, ordered, keep) && i < j < |rows|
    ensures a < b < |ordered|
    ensures RowById(t, field, ordered[a]) == Some(rows[i]) && RowById(t, field, ordered[b]) == Some(rows[j])
    decreases |ordered|, 1
  {
    var rest := Filter(t, field, ordered[1..], keep);
    var head := RowById(t, field, ordered[0]);
    if head.Some? && keep(head.value) {
      assert rows == [head.value] + rest;
      a, b := KeptPairs(t, field, ordered, keep, rows, rest, head.value, i, j);
    } else {
      assert rows == rest;
      var a', b' := FilterPairs(t, field, ordered[1..], keep, rest, i, j);
      Shift(t, field, ordered, a', rest[i]);
      Shift(t, field, ordered, b', rest[j]);
      a, b := a' + 1, b' + 1;
    }
  }

  /** FilterPairs when the first subscriber's row is kept. */
  lemma {:induction false} KeptPairs(t: Tables, field: Option<int>, ordered: seq<int>, keep: Row -> bool,
                                     rows: seq<Row>, rest: seq<Row>, row: Row, i: nat, j: nat)
    returns (a: nat, b: nat)
    requires ordered != [] && RowById(t, field, ordered[0]) == Some(row)
    requires rest == Filter(t, field, ordered[1..], keep) && rows == [row] + rest && i < j < |rows|
    ensures a < b < |ordered|
    ensures RowById(t, field, ordered[a]) == Some(rows[i]) && RowById(t, field, ordered[b]) == Some(rows[j])
    decreases |ordered|, 0
  {
    ConsIndex(rows, row, rest, j);
    if i == 0 {
      FilterFrom(t, field, ordered[1..], keep, rest[j - 1]);
      var m :| 0 <= m < |ordered[1..]| && RowById(t, field, ordered[1..][m]) == Some(rest[j - 1]);
      Shift(t, field, ordered, m, rest[j - 1]);
      a, b := 0, m + 1;
    } else {
      ConsIndex(rows, row, rest, i);
      var a', b' := FilterPairs(t, field, ordered[1..], keep, rest, i - 1, j - 1);
      Shift(t, field, ordered, a', rest[i - 1]);
      Shift(t, field, ordered, b', rest[j - 1]);
      a, b := a' + 1, b' + 1;
    }
  }

  lemma Shift(t: Tables, field: Option<int>, ordered: seq<int>, k: nat, row: Row)
    requires k + 1 < |ordered| && RowById(t, field, ordered[1..][k]) == Some(row)
    ensures RowById(t, field, ordered[k + 1]) == Some(row)
  {
    assert ordered[1..][k] == ordered[k + 1];
  }

  lemma ConsIndex<T>(s: seq<T>, x: T, rest: seq<T>, k: nat)
    requires s == [x] + rest && 0 < k < |s|
    ensures s[k] == rest[k - 1]
  {
  }

  lemma FilterSorted(t: Tables, field: Option<int>, ordered: seq<int>, keep: Row -> bool,
                     k: SortKey, order: string, cast: string -> int)
    requires KeyOrdered(t, ordered, k, order, field, cast)
    ensures var rows := Filter(t, field, ordered, keep);
            forall i, j :: 0 <= i < j < |rows| ==> InOrder(SortValueOf(k, rows[i], cast), SortValueOf(k, rows[j], cast), order)
  {
    var rows := Filter(t, field, ordered, keep);
    forall i, j | 0 <= i < j < |rows|
      ensures InOrder(SortValueOf(k, rows[i], cast), SortValueOf(k, rows[j], cast), order)
    {
      var a, b := FilterPairs(t, field, ordered, keep, rows, i, j);
    }
  }

  lemma FilterDistinctIds(t: Tables, field: Option<int>, ordered: seq<int>, keep: Row -> bool)
    requires NoDuplicates(ordered)
    ensures var rows := Filter(t, field, ordered, keep);
            forall i, j :: 0 <= i < j < |rows| ==> rows[i].sub.id != rows[j].sub.id
  {
    var rows := Filter(t, field, ordered, keep);
    forall i, j | 0 <= i < j < |rows| ensures rows[i].sub.id != rows[j].sub.id {
      var a, b := FilterPairs(t, field, ordered, keep, rows, i, j);
    }
  }

  lemma FilterIds(t: Tables, field: Option<int>, ordered: seq<int>, keep: Row -> bool)
    requires NoDuplicates(ordered)
    ensures var rows := Filter(t, field, ordered, keep);
            |rows| == |set r | r in rows :: r.sub.id|
  {
    var rows := Filter(t, field, ordered, keep);
    FilterDistinctIds(t, field, ordered, keep);
    var ids := seq(|rows|, i requires 0 <= i < |rows| => rows[i].sub.id);
    assert NoDuplicates(ids) by {
      forall i, j | 0 <= i < j < |ids| ensures ids[i] != ids[j] {
        assert ids[i] == rows[i].sub.id && ids[j] == rows[j].sub.id;
        assert rows[i].sub.id != rows[j].sub.id;
      }
    }
    SetOfDistinctSeq(ids);
    assert (set x | x in ids) == set r | r in rows :: r.sub.id by {
      forall r | r in rows ensures r.sub.id in ids {
        var i :| 0 <= i < |rows| && rows[i] == r;
        assert ids[i] == r.sub.id;
      }
      forall x | x in ids ensures x in set r | r in rows :: r.sub.id {
        var i :| 0 <= i < |ids| && ids[i] == x;
        assert rows[i] in rows;
      }
    }
  }

  /** The total the COUNT query returns is the length of the full listing. */
  lemma TotalIsListingLength(t: Tables, p: Params, field: Option<int>, ordered: seq<int>, cast: string -> int)
    requires Valid(t) && IsOrdering(t, ordered)
    ensures |MatchingIds(t, p, field, cast)| == |Listing(t, p, field, ordered, cast)|
  {
    var keep := MatchesOf(t, p, field, cast);
    var rows := Listing(t, p, field, ordered, cast);
    FilterIds(t, field, ordered, keep);
    forall id | id in MatchingIds(t, p, field, cast) ensures id in (set r | r in rows :: r.sub.id) {
      var s :| s in t.subscribers && Matches(p, field, t, RowOf(t, field, s), cast) && s.id == id;
      ListingMembers(t, p, field, ordered, cast, s);
    }
    forall id | id in (set r | r in rows :: r.sub.id) ensures id in MatchingIds(t, p, field, cast) {
      var r :| r in rows && r.sub.id == id;
      ListingSound(t, p, field, ordered, cast, r);
    }
    assert MatchingIds(t, p, field, cast) == set r | r in rows :: r.sub.id;
  }

  /** The page holds min(per_page, total - offset) items (none past the end), at offset (page - 1) * per_page. */
  lemma PageSize(t: Tables, p: Params, field: Option<int>, ordered: seq<int>, cast: string -> int)
    requires Valid(t) && IsOrdering(t, ordered)
    requires p.perPage >= 0 && Offset(p) >= 0
    ensures |PageOf(t, p, field, ordered, cast)| == Max(0, Min(p.perPage, |MatchingIds(t, p, field, cast)| - Offset(p)))
    ensures forall i :: 0 <= i < |PageOf(t, p, field, ordered, cast)| ==>
              PageOf(t, p, field, ordered, cast)[i] == ItemOf(t, Listing(t, p, field, ordered, cast)[Offset(p) + i])
  {
    TotalIsListingLength(t, p, field, ordered, cast);
  }

  /** Consecutive pages tile the listing: page n followed by page n + 1 is the double-size window at page n's offset. */
  lemma ConsecutivePages<T>(rows: seq<T>, perPage: nat, offset: nat)
    ensures Window(rows, perPage, offset) + Window(rows, perPage, offset + perPage) == Window(rows, 2 * perPage, offset)
  {
    var a, b, c := Window(rows, perPage, offset), Window(rows, perPage, offset + perPage), Window(rows, 2 * perPage, offset);
    assert |a + b| == |c|;
    forall i | 0 <= i < |c| ensures (a + b)[i] == c[i] {
      if i >= |a| { assert b[i - |a|] == rows[offset + perPage + (i - |a|)]; }
    }
  }

  lemma NameOfUnique(catalogue: seq<Named>, e: Named)
    requires UniqueNamedIds(catalogue)
    ensures NameOf(catalogue, e.id) == Some(e.name) <==> e in catalogue
  {
    if e in catalogue {
      var r := NameOf(catalogue, e.id);
      var i :| 0 <= i < |catalogue| && catalogue[i] == e;
      var j :| 0 <= j < |catalogue| && catalogue[j] == Named(e.id, r.value);
      assert i == j;
    }
  }

  /** A subscriber's entries are the catalogue rows it has a link to. */
  lemma {:induction false} EntriesMembers(links: seq<(int, int)>, catalogue: seq<Named>, sid: int, e: Named)
    requires UniqueNamedIds(catalogue)
    ensures e in EntriesOf(links, catalogue, sid) <==> (sid, e.id) in links && e in catalogue
  {
    NameOfUnique(catalogue, e);
    if links != [] {
      var front := links[..|links| - 1];
      EntriesMembers(front, catalogue, sid, e);
      assert links == front + [links[|links| - 1]];
      var l := links[|links| - 1];
      var name := NameOf(catalogue, l.1);
      if name.Some? {
        NameOfUnique(catalogue, Named(l.1, name.value));
      }
    }
  }

  /** An item's tags are exactly the catalogue tags its subscriber is linked to; its lists likewise. */
  lemma ItemMemberships(t: Tables, row: Row, e: Named)
    requires Valid(t)
    ensures e in ItemOf(t, row).tags <==> TagLink(row.sub.id, e.id) in t.subscriberTags && e in t.tags
    ensures e in ItemOf(t, row).lists <==>
            (exists l :: l in t.subscriberSegments && l.subscriberId == row.sub.id && l.segmentId == e.id) && e in t.segments
  {
    var tl := TagLinkPairs(t.subscriberTags);
    var sl := SegmentLinkPairs(t.subscriberSegments);
    EntriesMembers(tl, t.tags, row.sub.id, e);
    EntriesMembers(sl, t.segments, row.sub.id, e);
    if (row.sub.id, e.id) in tl {
      var i :| 0 <= i < |tl| && tl[i] == (row.sub.id, e.id);
      assert t.subscriberTags[i] == TagLink(row.sub.id, e.id);
    }
    if TagLink(row.sub.id, e.id) in t.subscriberTags {
      var i :| 0 <= i < |t.subscriberTags| && t.subscriberTags[i] == TagLink(row.sub.id, e.id);
      assert tl[i] == (row.sub.id, e.id);
    }
    if (row.sub.id, e.id) in sl {
      var i :| 0 <= i < |sl| && sl[i] == (row.sub.id, e.id);
      assert t.subscriberSegments[i] in t.subscriberSegments;
    }
    if exists l :: l in t.subscriberSegments && l.subscriberId == row.sub.id && l.segmentId == e.id {
      var l :| l in t.subscriberSegments && l.subscriberId == row.sub.id && l.segmentId == e.id;
      var i :| 0 <= i < |t.subscriberSegments| && t.subscriberSegments[i] == l;
      assert sl[i] == (row.sub.id, e.id);
    }
  }
}
