/**
 * The `field=value,field=value` parser of the command line: `parse_spec`
 * in marketo_monkey/__main__.py and the same loop written inline in the
 * legacy script's `main`.
 *
 * The text is split on ','. A segment that is empty or has no '=' is
 * skipped; a segment with exactly one '=' assigns the text after it to the
 * field before it, a later assignment overwriting an earlier one; a segment
 * with two or more '=' makes the unpacking `field, value = expr.split('=')`
 * raise, and no map is returned.
 */
module SpecParser {
  import opened Results
  import opened Strings

  /** What the loop body does with one segment. */
  datatype Segment =
    | Skipped                                   // `continue`
    | Assignment(field: string, value: string)  // `spec[field] = value`
    | TooManyValues                             // the unpacking raises

  /** The ValueError raised by the unpacking, with the segment that caused it. */
  datatype SpecError = UnpackError(segment: string)

  function Classify(expr: string): Segment
  {
    if expr == [] || '=' !in expr then Skipped
    else
      var parts := Split(expr, '=');
      if |parts| == 2 then Assignment(parts[0], parts[1]) else TooManyValues
  }

  /** A segment assigns exactly when it holds exactly one '='; the field is the text before it, the value the text after it. */
  lemma ClassifyAssignment(expr: string, field: string, value: string)
    ensures Classify(expr) == Assignment(field, value)
        <==> expr == field + "=" + value && '=' !in field && '=' !in value
  {
    if Classify(expr) == Assignment(field, value) {
      var parts := Split(expr, '=');
      JoinSplit(expr, '=');
      assert parts == [field, value];
      assert Join(parts, '=') == field + "=" + Join([value], '=');
    }
    if expr == field + "=" + value && '=' !in field && '=' !in value {
      assert expr[|field|] == '=';
      assert Join([field, value], '=') == field + "=" + Join([value], '=');
      SplitJoin([field, value], '=');
    }
  }

  /** A segment makes the parse fail exactly when it holds two or more '='. */
  lemma ClassifyTooManyValues(expr: string)
    ensures Classify(expr) == TooManyValues <==> Count(expr, '=') >= 2
  {
    CountPositive(expr, '=');
  }

  /** One iteration of the loop: the map so far, updated with one segment. */
  function Step(spec: map<string, string>, expr: string): Result<map<string, string>, SpecError>
  {
    match Classify(expr)
    case Skipped => Ok(spec)
    case Assignment(field, value) => Ok(spec[field := value])
    case TooManyValues => Err(UnpackError(expr))
  }

  /** The loop over the segments, from the empty map, stopping at the first exception. */
  function Fold(exprs: seq<string>): Result<map<string, string>, SpecError>
    decreases |exprs|
  {
    if exprs == [] then Ok(map[])
    else
      match Fold(exprs[..|exprs| - 1])
      case Err(e) => Err(e)
      case Ok(spec) => Step(spec, exprs[|exprs| - 1])
  }

  /** What `parse_spec(text)` returns or raises. */
  function ParsedSpec(text: string): Result<map<string, string>, SpecError>
  {
    Fold(Split(text, ','))
  }

  /** Segment `i` assigns field `k`. */
  ghost predicate Assigns(exprs: seq<string>, i: int, k: string)
  {
    0 <= i < |exprs| && Classify(exprs[i]).Assignment? && Classify(exprs[i]).field == k
  }

  /** Segment `i` is the last one that assigns field `k`. */
  ghost predicate LastAssigns(exprs: seq<string>, i: int, k: string)
  {
    Assigns(exprs, i, k) && forall j :: i < j < |exprs| ==> !Assigns(exprs, j, k)
  }

  /** Once the loop has raised, the later segments do not matter. */
  lemma {:induction false} FoldErrSticky(exprs: seq<string>, n: nat)
    requires n <= |exprs|
    requires Fold(exprs[..n]).Err?
    ensures Fold(exprs) == Fold(exprs[..n])
    decreases |exprs| - n
  {
    if n < |exprs| {
      var m := exprs[..n + 1];
      assert m[..|m| - 1] == exprs[..n];
      FoldErrSticky(exprs, n + 1);
    } else {
      assert exprs[..n] == exprs;
    }
  }

  /** The parse succeeds exactly when no segment holds two or more '='. */
  lemma {:induction false} FoldOk(exprs: seq<string>)
    ensures Fold(exprs).Ok? <==> forall i :: 0 <= i < |exprs| ==> Classify(exprs[i]) != TooManyValues
    decreases |exprs|
  {
    if exprs != [] {
      var init := exprs[..|exprs| - 1];
      FoldOk(init);
      assert forall i :: 0 <= i < |init| ==> init[i] == exprs[i];
    }
  }

  /** When it fails, it raises for the first segment that holds two or more '='. */
  lemma {:induction false} FoldFirstError(exprs: seq<string>, j: nat)
    requires j < |exprs| && Classify(exprs[j]) == TooManyValues
    requires forall i :: 0 <= i < j ==> Classify(exprs[i]) != TooManyValues
    ensures Fold(exprs) == Err(UnpackError(exprs[j]))
    decreases |exprs|
  {
    var init := exprs[..|exprs| - 1];
    assert forall i :: 0 <= i < |init| ==> init[i] == exprs[i];
    if j == |exprs| - 1 {
      FoldOk(init);
    } else {
      FoldFirstError(init, j);
    }
  }

  /** The fields in the result are exactly the fields that some segment assigns. */
  lemma {:induction false} FoldKeys(exprs: seq<string>)
    requires Fold(exprs).Ok?
    ensures forall k :: k in Fold(exprs).value <==> exists i :: Assigns(exprs, i, k)
    decreases |exprs|
  {
    if exprs != [] {
      var n := |exprs| - 1;
      var init := exprs[..n];
      FoldKeys(init);
      forall k
        ensures k in Fold(exprs).value <==> exists i :: Assigns(exprs, i, k)
      {
        if k in Fold(exprs).value {
          if !Assigns(exprs, n, k) {
            var i :| Assigns(init, i, k);
            assert Assigns(exprs, i, k);
          }
        } else {
          forall i | 0 <= i < |exprs| ensures !Assigns(exprs, i, k) {
            if i < n {
              assert !Assigns(init, i, k);
            }
          }
        }
      }
    }
  }

  /** Each field in the result holds the value of the last segment that assigns it. */
  lemma {:induction false} FoldValues(exprs: seq<string>)
    requires Fold(exprs).Ok?
    ensures forall k :: k in Fold(exprs).value ==>
      exists i :: LastAssigns(exprs, i, k) && Fold(exprs).value[k] == Classify(exprs[i]).value
    decreases |exprs|
  {
    if exprs != [] {
      var n := |exprs| - 1;
      var init := exprs[..n];
      FoldValues(init);
      forall k | k in Fold(exprs).value
        ensures exists i :: LastAssigns(exprs, i, k) && Fold(exprs).value[k] == Classify(exprs[i]).value
      {
        if Assigns(exprs, n, k) {
          assert LastAssigns(exprs, n, k);
        } else {
          var i :| LastAssigns(init, i, k) && Fold(init).value[k] == Classify(init[i]).value;
          forall j | i < j < |exprs| ensures !Assigns(exprs, j, k) {
            if j < n {
              assert init[j] == exprs[j] && !Assigns(init, j, k);
            }
          }
          assert LastAssigns(exprs, i, k);
        }
      }
    }
  }

  /** When a field is assigned several times, the value of the last assignment wins. */
  lemma LastWins(exprs: seq<string>, i: int, k: string)
    requires Fold(exprs).Ok? && LastAssigns(exprs, i, k)
    ensures k in Fold(exprs).value && Fold(exprs).value[k] == Classify(exprs[i]).value
  {
    FoldKeys(exprs);
    FoldValues(exprs);
    var i' :| LastAssigns(exprs, i', k) && Fold(exprs).value[k] == Classify(exprs[i']).value;
  }

  /** A segment that is empty or has no '=' can be dropped without changing the outcome. */
  lemma {:induction false} SkippedSegmentIgnored(exprs: seq<string>, i: nat)
    requires i < |exprs| && Classify(exprs[i]) == Skipped
    ensures Fold(exprs) == Fold(exprs[..i] + exprs[i + 1..])
    decreases |exprs|
  {
    var n := |exprs| - 1;
    var init := exprs[..n];
    var dropped := exprs[..i] + exprs[i + 1..];
    if i == n {
      assert dropped == init;
    } else {
      SkippedSegmentIgnored(init, i);
      assert dropped[..|dropped| - 1] == init[..i] + init[i + 1..];
      assert dropped[|dropped| - 1] == exprs[n];
    }
  }

  /** The empty text splits into one empty segment, which is skipped. */
  lemma ParseEmpty()
    ensures ParsedSpec("") == Ok(map[])
  {
    assert Split("", ',') == [""];
    assert [""][..0] == [];
  }

  /** No field or value of a parsed spec holds ',' or '='. */
  lemma ParsedSpecCharacters(text: string)
    requires ParsedSpec(text).Ok?
    ensures forall k :: k in ParsedSpec(text).value ==>
      ',' !in k && '=' !in k && ',' !in ParsedSpec(text).value[k] && '=' !in ParsedSpec(text).value[k]
  {
    var exprs := Split(text, ',');
    FoldValues(exprs);
    forall k | k in ParsedSpec(text).value
      ensures ',' !in k && '=' !in k && ',' !in ParsedSpec(text).value[k] && '=' !in ParsedSpec(text).value[k]
    {
      var i :| LastAssigns(exprs, i, k) && Fold(exprs).value[k] == Classify(exprs[i]).value;
      var v := Classify(exprs[i]).value;
      ClassifyAssignment(exprs[i], k, v);
      assert exprs[i] == k + "=" + v;
      assert forall c :: c in k ==> c in exprs[i];
      assert forall c :: c in v ==> c in exprs[i];
    }
  }

  /**
   * The loop of `parse_spec`: split on ',', skip the segments that are empty
   * or have no '=', unpack the others into field and value, and store them,
   * overwriting earlier values.
   */
  method ParseSpec(text: string) returns (r: Result<map<string, string>, SpecError>)
    ensures r == ParsedSpec(text)
  {
    var exprs := Split(text, ',');
    var spec := map[];
    var i := 0;
    while i < |exprs|
      invariant i <= |exprs|
      invariant Fold(exprs[..i]) == Ok(spec)
    {
      var expr := exprs[i];
      var done := exprs[..i + 1];
      assert done[..i] == exprs[..i] && done[i] == expr;
      i := i + 1;
      if expr == [] || '=' !in expr {
        continue;
      }
      var parts := Split(expr, '=');
      if |parts| != 2 {
        r := Err(UnpackError(expr));
        FoldErrSticky(exprs, i);
        return;
      }
      spec := spec[parts[0] := parts[1]];
    }
    assert exprs[..i] == exprs;
    r := Ok(spec);
  }
}
