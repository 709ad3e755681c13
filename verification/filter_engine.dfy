/**
 The search-and-category filter shared by the user roster and the activity timeline.
 A record is kept when the lower-cased search term occurs in the lower-cased form of
 either of its two searchable fields AND its category passes the category filter,
 where the filter "all" passes everything and any other value demands exact,
 case-sensitive equality.
 */
module FilterEngine {
  import Seqs
  import Text

  /** The category filter value that imposes no restriction. */
  const All: string := "all"

  /** The search box contents and the selected category filter. */
  datatype Query = Query(term: string, category: string)

  /** Case-insensitive substring search over the two searchable fields. */
  predicate SearchMatches(term: string, fields: (string, string))
  {
    var t := Text.Lower(term);
    Text.Includes(Text.Lower(fields.0), t) || Text.Includes(Text.Lower(fields.1), t)
  }

  predicate CategoryMatches(filter: string, category: string)
  {
    filter == All || category == filter
  }

  /** The per-record predicate of a query, for records projected by `fields` and `category`. */
  function Keep<R>(q: Query, fields: R -> (string, string), category: R -> string): R -> bool
  {
    x => SearchMatches(q.term, fields(x)) && CategoryMatches(q.category, category(x))
  }

  /** The records of `rs` that the query keeps, in their original order. */
  function Apply<R(==)>(rs: seq<R>, q: Query, fields: R -> (string, string), category: R -> string): (r: seq<R>)
    ensures Seqs.IsSubseq(r, rs)
    ensures |r| <= |rs|
    ensures forall i :: 0 <= i < |r| ==>
      SearchMatches(q.term, fields(r[i])) && CategoryMatches(q.category, category(r[i]))
    ensures forall i :: 0 <= i < |rs| ==>
      (rs[i] in r <==> SearchMatches(q.term, fields(rs[i])) && CategoryMatches(q.category, category(rs[i])))
  {
    Seqs.Filter(rs, Keep(q, fields, category))
  }

  /** The empty term matches every record, whatever its fields. */
  lemma EmptyTermMatches(fields: (string, string))
    ensures SearchMatches("", fields)
  {
    assert Text.Lower("") == "";
    Text.IncludesEmpty(Text.Lower(fields.0));
  }

  /** With the empty term, a query keeps exactly the records whose category passes. */
  lemma CategoryOnly<R>(x: R, c: string, fields: R -> (string, string), category: R -> string)
    ensures Keep(Query("", c), fields, category)(x) == CategoryMatches(c, category(x))
  {
    EmptyTermMatches(fields(x));
  }

  /** The search is blind to the case of the term's ASCII letters. */
  lemma SearchIgnoresTermCase(term: string, fields: (string, string))
    ensures SearchMatches(Text.Lower(term), fields) == SearchMatches(term, fields)
  {
    Text.LowerIdempotent(term);
  }

  /** An empty term with category "all" keeps every record, in order. */
  lemma ApplyNeutral<R>(rs: seq<R>, fields: R -> (string, string), category: R -> string)
    ensures Apply(rs, Query("", All), fields, category) == rs
  {
    forall i | 0 <= i < |rs|
      ensures Keep(Query("", All), fields, category)(rs[i])
    {
      EmptyTermMatches(fields(rs[i]));
    }
    Seqs.FilterKeepsAll(rs, Keep(Query("", All), fields, category));
  }

  /** Applying a query to its own result changes nothing. */
  lemma ApplyIdempotent<R>(rs: seq<R>, q: Query, fields: R -> (string, string), category: R -> string)
    ensures Apply(Apply(rs, q, fields, category), q, fields, category) == Apply(rs, q, fields, category)
  {
    Seqs.FilterIdempotent(rs, Keep(q, fields, category));
  }

  /**
   A query is the conjunction of its search part and its category part: applying it
   is applying the search alone (category "all") and then the category alone (empty term).
   */
  lemma ApplySplits<R>(rs: seq<R>, q: Query, fields: R -> (string, string), category: R -> string)
    ensures Apply(rs, q, fields, category)
         == Apply(Apply(rs, Query(q.term, All), fields, category), Query("", q.category), fields, category)
  {
    var p := Keep(Query(q.term, All), fields, category);
    var c := Keep(Query("", q.category), fields, category);
    forall x
      ensures Keep(q, fields, category)(x) == (p(x) && c(x))
    {
      EmptyTermMatches(fields(x));
    }
    Seqs.FilterConjunction(rs, p, c, Keep(q, fields, category));
  }

  /** The two parts commute: the category may equally be applied first. */
  lemma ApplyCommutes<R>(rs: seq<R>, q: Query, fields: R -> (string, string), category: R -> string)
    ensures Apply(rs, q, fields, category)
         == Apply(Apply(rs, Query("", q.category), fields, category), Query(q.term, All), fields, category)
  {
    var p := Keep(Query(q.term, All), fields, category);
    var c := Keep(Query("", q.category), fields, category);
    forall x
      ensures Keep(q, fields, category)(x) == (c(x) && p(x))
    {
      EmptyTermMatches(fields(x));
    }
    Seqs.FilterConjunction(rs, c, p, Keep(q, fields, category));
  }

  /** When no record's fields contain the term, nothing is shown. */
  lemma ApplyNoMatch<R>(rs: seq<R>, q: Query, fields: R -> (string, string), category: R -> string)
    requires forall i :: 0 <= i < |rs| ==> !SearchMatches(q.term, fields(rs[i]))
    ensures Apply(rs, q, fields, category) == []
  {
  }

  /**
   The result is the longest order-preserving subsequence of `rs` whose records all
   pass the query: any such subsequence at least as long is the result itself.
   */
  lemma ApplyIsLongestMatch<R>(t: seq<R>, rs: seq<R>, q: Query, fields: R -> (string, string), category: R -> string)
    requires Seqs.IsSubseq(t, rs)
    requires forall i :: 0 <= i < |t| ==>
      SearchMatches(q.term, fields(t[i])) && CategoryMatches(q.category, category(t[i]))
    requires |t| >= |Apply(rs, q, fields, category)|
    ensures t == Apply(rs, q, fields, category)
  {
    Seqs.FilterUnique(t, rs, Keep(q, fields, category));
  }
}
