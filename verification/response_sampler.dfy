/**
 * The response sampler middleware: it runs an API's template once on its
 * example parameters, reads the columns of the result, and merges them into
 * the declared response, the declared entries taking precedence.
 */
module ResponseSampling {
  import opened Wrappers

  /** One response column: its name and its type name. */
  datatype ResponseProperty = ResponseProperty(name: string, fieldType: string)

  // ---------------------------------------------------------------------------
  // Normalisation
  // ---------------------------------------------------------------------------

  /** ASCII upper case of one character; every other character is kept. */
  function UpperChar(c: char): (u: char)
    ensures 'a' <= c <= 'z' ==> 'A' <= u <= 'Z' && u as int == c as int - 32
    ensures !('a' <= c <= 'z') ==> u == c
  {
    if 'a' <= c <= 'z' then (c as int - 32) as char else c
  }

  /** A string holds no lower-case ASCII letter. */
  predicate IsUpper(s: string) {
    forall i :: 0 <= i < |s| ==> !('a' <= s[i] <= 'z')
  }

  function ToUpper(s: string): (u: string)
    ensures |u| == |s| && IsUpper(u)
    ensures forall i :: 0 <= i < |s| ==> u[i] == UpperChar(s[i])
  {
    seq(|s|, i requires 0 <= i < |s| => UpperChar(s[i]))
  }

  /** Upper-casing an upper-case string changes nothing. */
  lemma ToUpperIdempotent(s: string)
    ensures ToUpper(ToUpper(s)) == ToUpper(s)
  {
    var u := ToUpper(s);
    assert forall i :: 0 <= i < |u| ==> UpperChar(u[i]) == u[i];
  }

  /**
   * `normalizeResponseColumns`: the same columns in the same order, names
   * kept, each type the input's type with every letter upper-cased.
   */
  function NormalizeResponseColumns(columns: seq<ResponseProperty>): (r: seq<ResponseProperty>)
    ensures |r| == |columns|
    ensures forall i :: 0 <= i < |r| ==> r[i].name == columns[i].name && IsUpper(r[i].fieldType)
    ensures forall i :: 0 <= i < |r| ==> |r[i].fieldType| == |columns[i].fieldType|
    ensures forall i, k :: 0 <= i < |r| && 0 <= k < |r[i].fieldType| ==>
      r[i].fieldType[k] == UpperChar(columns[i].fieldType[k])
  {
    seq(|columns|, i requires 0 <= i < |columns| => ResponseProperty(columns[i].name, ToUpper(columns[i].fieldType)))
  }

  /** Normalising twice is normalising once. */
  lemma NormalizeIdempotent(columns: seq<ResponseProperty>)
    ensures NormalizeResponseColumns(NormalizeResponseColumns(columns)) == NormalizeResponseColumns(columns)
  {
    var once := NormalizeResponseColumns(columns);
    forall i | 0 <= i < |once| ensures ToUpper(once[i].fieldType) == once[i].fieldType {
      ToUpperIdempotent(columns[i].fieldType);
    }
  }

  // ---------------------------------------------------------------------------
  // Union by name
  // ---------------------------------------------------------------------------

  function Names(xs: seq<ResponseProperty>): set<string> {
    set x | x in xs :: x.name
  }

  ghost predicate UniqueNames(xs: seq<ResponseProperty>) {
    forall i, j :: 0 <= i < j < |xs| ==> xs[i].name != xs[j].name
  }

  /** The entries of `xs`, in order, skipping every entry whose name is in `seen` or was kept before. */
  function UnionBy(xs: seq<ResponseProperty>, seen: set<string>): seq<ResponseProperty>
  {
    if xs == [] then []
    else if xs[0].name in seen then UnionBy(xs[1..], seen)
    else [xs[0]] + UnionBy(xs[1..], seen + {xs[0].name})
  }

  /** `mergeResponse`: union by name of `source` followed by `target`. */
  function MergeResponse(source: seq<ResponseProperty>, target: seq<ResponseProperty>): seq<ResponseProperty>
  {
    UnionBy(source + target, {})
  }

  /** Every kept entry comes from `xs` and carries a name outside `seen`. */
  lemma {:induction false} UnionBySubset(xs: seq<ResponseProperty>, seen: set<string>)
    ensures forall x :: x in UnionBy(xs, seen) ==> x in xs && x.name !in seen
  {
    if xs != [] {
      var rest := xs[1..];
      if xs[0].name in seen {
        UnionBySubset(rest, seen);
      } else {
        UnionBySubset(rest, seen + {xs[0].name});
        assert UnionBy(xs, seen) == [xs[0]] + UnionBy(rest, seen + {xs[0].name});
      }
    }
  }

  /** Putting an entry with a fresh name in front keeps the names distinct. */
  lemma UniqueCons(head: ResponseProperty, tail: seq<ResponseProperty>)
    requires UniqueNames(tail) && forall x :: x in tail ==> x.name != head.name
    ensures UniqueNames([head] + tail)
  {
    var r := [head] + tail;
    forall i, j | 0 <= i < j < |r| ensures r[i].name != r[j].name {
      assert r[j] == tail[j - 1];
      if i > 0 {
        assert r[i] == tail[i - 1];
      } else {
        assert tail[j - 1] in tail;
      }
    }
  }

  /** No two kept entries share a name. */
  lemma {:induction false} UnionByUnique(xs: seq<ResponseProperty>, seen: set<string>)
    ensures UniqueNames(UnionBy(xs, seen))
  {
    if xs != [] {
      var rest := xs[1..];
      if xs[0].name in seen {
        UnionByUnique(rest, seen);
      } else {
        var seen' := seen + {xs[0].name};
        UnionByUnique(rest, seen');
        UnionBySubset(rest, seen');
        UniqueCons(xs[0], UnionBy(rest, seen'));
      }
    }
  }

  /** Every name of `xs` outside `seen` is kept, and no other. */
  lemma {:induction false} UnionByNames(xs: seq<ResponseProperty>, seen: set<string>)
    ensures Names(UnionBy(xs, seen)) == Names(xs) - seen
  {
    if xs != [] {
      var rest := xs[1..];
      assert forall x :: x in xs <==> x == xs[0] || x in rest;
      assert Names(xs) == {xs[0].name} + Names(rest);
      if xs[0].name in seen {
        UnionByNames(rest, seen);
      } else {
        var seen' := seen + {xs[0].name};
        UnionByNames(rest, seen');
        var r := UnionBy(xs, seen);
        var tail := UnionBy(rest, seen');
        assert r == [xs[0]] + tail;
        assert forall x :: x in r <==> x == xs[0] || x in tail;
        assert Names(r) == {xs[0].name} + Names(tail);
      }
    }
  }

  /** A first occurrence in `xs[1..]` of a name `xs[0]` does not carry is a first occurrence in `xs`. */
  lemma FirstInTail(xs: seq<ResponseProperty>, i: nat)
    requires 0 < |xs| && i < |xs| - 1
    requires xs[0].name != xs[i + 1].name
    requires forall j :: 0 <= j < i ==> xs[1..][j].name != xs[1..][i].name
    ensures forall j :: 0 <= j < i + 1 ==> xs[j].name != xs[i + 1].name
  {
    forall j | 0 < j < i + 1 ensures xs[j].name != xs[i + 1].name {
      assert xs[j] == xs[1..][j - 1] && xs[i + 1] == xs[1..][i];
    }
  }

  /** Each kept entry is the first entry of `xs` carrying its name. */
  lemma {:induction false} UnionByFirstOccurrence(xs: seq<ResponseProperty>, seen: set<string>, k: nat)
    requires k < |UnionBy(xs, seen)|
    ensures exists i :: (0 <= i < |xs| && xs[i] == UnionBy(xs, seen)[k]
      && forall j :: 0 <= j < i ==> xs[j].name != xs[i].name)
  {
    var r := UnionBy(xs, seen);
    var rest := xs[1..];
    if xs[0].name in seen {
      assert r == UnionBy(rest, seen);
      UnionByFirstOccurrence(rest, seen, k);
      UnionBySubset(rest, seen);
      var i :| 0 <= i < |rest| && rest[i] == r[k] && forall j :: 0 <= j < i ==> rest[j].name != rest[i].name;
      assert r[k] in UnionBy(rest, seen);
      FirstInTail(xs, i);
      assert xs[i + 1] == r[k];
    } else if k == 0 {
      assert xs[0] == r[0];
    } else {
      var seen' := seen + {xs[0].name};
      assert r == [xs[0]] + UnionBy(rest, seen');
      assert r[k] == UnionBy(rest, seen')[k - 1];
      UnionByFirstOccurrence(rest, seen', k - 1);
      UnionBySubset(rest, seen');
      var i :| 0 <= i < |rest| && rest[i] == r[k] && forall j :: 0 <= j < i ==> rest[j].name != rest[i].name;
      assert r[k] in UnionBy(rest, seen');
      FirstInTail(xs, i);
      assert xs[i + 1] == r[k];
    }
  }

  /** Splitting the input splits the output: the second part only adds names the first did not have. */
  lemma {:induction false} UnionByAppend(a: seq<ResponseProperty>, b: seq<ResponseProperty>, seen: set<string>)
    ensures UnionBy(a + b, seen) == UnionBy(a, seen) + UnionBy(b, seen + Names(a))
  {
    if a == [] {
      assert a + b == b;
      assert Names(a) == {};
      assert seen + Names(a) == seen;
    } else {
      var rest := a[1..];
      assert (a + b)[0] == a[0];
      assert (a + b)[1..] == rest + b;
      assert forall x :: x in a <==> x == a[0] || x in rest;
      assert Names(a) == {a[0].name} + Names(rest);
      if a[0].name in seen {
        UnionByAppend(rest, b, seen);
        assert seen + Names(rest) == seen + Names(a);
      } else {
        UnionByAppend(rest, b, seen + {a[0].name});
        assert seen + {a[0].name} + Names(rest) == seen + Names(a);
      }
    }
  }

  /** The merge keeps one entry per name, and loses no name of either side. */
  lemma MergeResponseNames(source: seq<ResponseProperty>, target: seq<ResponseProperty>)
    ensures UniqueNames(MergeResponse(source, target))
    ensures Names(MergeResponse(source, target)) == Names(source) + Names(target)
    ensures forall x :: x in MergeResponse(source, target) ==> x in source || x in target
  {
    UnionByUnique(source + target, {});
    UnionBySubset(source + target, {});
    UnionByNames(source + target, {});
    assert forall x :: x in source + target <==> x in source || x in target;
    assert Names(source + target) == Names(source) + Names(target);
  }

  /**
   * The merge begins with the deduplicated declared entries, in their order,
   * and only then adds the sampled columns whose names were not declared.
   */
  lemma MergeResponseDeclaredFirst(source: seq<ResponseProperty>, target: seq<ResponseProperty>)
    ensures MergeResponse(source, target) == UnionBy(source, {}) + UnionBy(target, Names(source))
  {
    UnionByAppend(source, target, {});
    assert {} + Names(source) == Names(source);
  }

  /** Declared entries with distinct names all survive the merge, untouched and in front. */
  lemma {:induction false} UnionByKeepsUnique(xs: seq<ResponseProperty>)
    requires UniqueNames(xs)
    ensures UnionBy(xs, {}) == xs
  {
    UnionByKeepsUniqueFrom(xs, {});
  }

  lemma {:induction false} UnionByKeepsUniqueFrom(xs: seq<ResponseProperty>, seen: set<string>)
    requires UniqueNames(xs) && forall x :: x in xs ==> x.name !in seen
    ensures UnionBy(xs, seen) == xs
  {
    if xs != [] {
      var rest := xs[1..];
      assert UniqueNames(rest) by {
        forall i, j | 0 <= i < j < |rest| ensures rest[i].name != rest[j].name {
          assert rest[i] == xs[i + 1] && rest[j] == xs[j + 1];
        }
      }
      forall x | x in rest ensures x.name !in seen + {xs[0].name} {
        var j :| 0 <= j < |rest| && rest[j] == x;
        assert xs[j + 1] == x;
      }
      UnionByKeepsUniqueFrom(rest, seen + {xs[0].name});
      assert xs == [xs[0]] + rest;
    }
  }

  /** A declared name is answered by the first declared entry carrying it, never by a sampled column. */
  lemma MergeDeclaredWins(source: seq<ResponseProperty>, target: seq<ResponseProperty>, k: nat)
    requires k < |MergeResponse(source, target)| && MergeResponse(source, target)[k].name in Names(source)
    ensures MergeResponse(source, target)[k] in source
  {
    var m := MergeResponse(source, target);
    UnionByFirstOccurrence(source + target, {}, k);
    var i :| 0 <= i < |source + target| && (source + target)[i] == m[k]
      && forall j :: 0 <= j < i ==> (source + target)[j].name != (source + target)[i].name;
    var x :| x in source && x.name == m[k].name;
    var j :| 0 <= j < |source| && source[j] == x;
    assert (source + target)[j] == source[j];
    assert i <= j;
    assert (source + target)[i] == source[i];
  }

  // ---------------------------------------------------------------------------
  // The middleware
  // ---------------------------------------------------------------------------

  /** One execution request to the template engine: template, `context.params`, limit and offset. */
  datatype ProbeRequest = ProbeRequest(templateSource: string, params: map<string, string>, limit: int, offset: int)

  /**
   * The template engine as the sampler sees it: it logs each execution and
   * reports the result's columns, or the error the execution rejects with.
   */
  class TemplateEngine {
    var requests: seq<ProbeRequest>
    const columnsOf: ProbeRequest -> Result<seq<ResponseProperty>, string>

    constructor (columnsOf: ProbeRequest -> Result<seq<ResponseProperty>, string>)
      ensures requests == [] && this.columnsOf == columnsOf
    {
      requests := [];
      this.columnsOf := columnsOf;
    }

    method Execute(request: ProbeRequest) returns (columns: Result<seq<ResponseProperty>, string>)
      modifies this
      ensures requests == old(requests) + [request]
      ensures columns == columnsOf(request)
    {
      requests := requests + [request];
      columns := columnsOf(request);
    }
  }

  /** The part of an API schema the sampler reads and writes. */
  class Schema {
    var templateSource: string
    var exampleParameter: Option<map<string, string>>
    var response: Option<seq<ResponseProperty>>

    constructor (templateSource: string, exampleParameter: Option<map<string, string>>, response: Option<seq<ResponseProperty>>)
      ensures this.templateSource == templateSource && this.exampleParameter == exampleParameter && this.response == response
    {
      this.templateSource := templateSource;
      this.exampleParameter := exampleParameter;
      this.response := response;
    }
  }

  class ResponseSampler {
    const templateEngine: TemplateEngine

    constructor (templateEngine: TemplateEngine)
      ensures this.templateEngine == templateEngine
    {
      this.templateEngine := templateEngine;
    }

    /**
     * `handle`, after the rest of the chain has run: without example
     * parameters nothing is executed and the schema is left alone; otherwise
     * one probe with limit 0 and offset 0 runs and its normalised columns are
     * merged behind the declared response. A probe that fails rejects the
     * handler with its error (`failure`) and leaves the response as it was.
     */
    method Handle(schema: Schema) returns (failure: Option<string>)
      modifies schema, templateEngine
      ensures schema.templateSource == old(schema.templateSource)
      ensures schema.exampleParameter == old(schema.exampleParameter)
      ensures old(schema.exampleParameter).None? ==>
        failure.None? && schema.response == old(schema.response) && templateEngine.requests == old(templateEngine.requests)
      ensures old(schema.exampleParameter).Some? ==>
        var probe := ProbeRequest(old(schema.templateSource), old(schema.exampleParameter).value, 0, 0);
        && templateEngine.requests == old(templateEngine.requests) + [probe]
        && (templateEngine.columnsOf(probe).Failure? ==>
              failure == Some(templateEngine.columnsOf(probe).error) && schema.response == old(schema.response))
        && (templateEngine.columnsOf(probe).Success? ==>
              failure.None?
              && schema.response == Some(MergeResponse(old(schema.response).GetOr([]),
                                                       NormalizeResponseColumns(templateEngine.columnsOf(probe).value))))
    {
      if schema.exampleParameter.None? {
        return None;
      }
      var columns := templateEngine.Execute(ProbeRequest(schema.templateSource, schema.exampleParameter.value, 0, 0));
      if columns.Failure? {
        return Some(columns.error);
      }
      var responseColumns := NormalizeResponseColumns(columns.value);
      schema.response := Some(MergeResponse(schema.response.GetOr([]), responseColumns));
      return None;
    }
  }
}
