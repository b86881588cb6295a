/**
 * The partial-update builder the Node.js product, customer and category
 * handlers share: walk an allow-list of attribute names, and for each one
 * the request body carries, validate it, append `, #f = :f` to a SET
 * expression that starts with `updatedAt`, name `#f` and bind `:f`.  The
 * store then applies the expression to the item.
 */
module LambdaUpdate {
  import opened Wrappers
  import opened JsValues

  /** A parsed request body: the attributes it carries. */
  type Body = map<string, Json>

  /** What the builder produces: a refusal message, or the expression with its names and values. */
  datatype Outcome =
    | Refused(message: string)
    | Planned(expression: string, names: map<string, string>, values: map<string, Json>, hasUpdates: bool)

  /**
   * The value stored for attribute `f` given `v`: "price" is read by
   * `parseFloat` and "inventory" by `parseInt`, `None` when they do not
   * parse; anything else is stored as sent.
   */
  function Converted(f: string, v: Json): (r: Option<Json>)
    ensures f != "price" && f != "inventory" ==> r == Some(v)
    ensures f == "price" ==> (r.None? <==> ParseFloat(v).None?) && (r.Some? ==> r == Some(JNum(ParseFloat(v).value)))
    ensures f == "inventory" ==> (r.None? <==> ParseInt(v).None?) && (r.Some? ==> r == Some(JNum(ParseInt(v).value)))
  {
    if f == "price" || f == "inventory" then
      var n := if f == "price" then ParseFloat(v) else ParseInt(v);
      if n.Some? then Some(JNum(n.value)) else None
    else Some(v)
  }

  function StoredValue(f: string, v: Json): Json {
    Converted(f, v).GetOr(v)
  }

  /** The message a value that does not convert is refused with. */
  function NotANumber(f: string): string {
    if f == "price" then "Price must be a number" else "Inventory must be a number"
  }

  /** The allowed attributes the body carries, in allow-list order. */
  function Given(allowed: seq<string>, body: Body): seq<string> {
    if allowed == [] then []
    else
      var last := allowed[|allowed| - 1];
      Given(allowed[..|allowed| - 1], body) + (if last in body then [last] else [])
  }

  /** The refusal for the first allowed attribute whose value does not convert; `None` when all do. */
  function FirstInvalid(allowed: seq<string>, body: Body): Option<string> {
    if allowed == [] then None
    else
      var last := allowed[|allowed| - 1];
      var e := FirstInvalid(allowed[..|allowed| - 1], body);
      if e.Some? then e
      else if last in body && Converted(last, body[last]).None? then Some(NotANumber(last))
      else None
  }

  /** The update expression: `updatedAt`, then `#f = :f` for each allowed attribute the body carries. */
  function Expression(allowed: seq<string>, body: Body): string {
    if allowed == [] then "SET updatedAt = :updatedAt"
    else
      var last := allowed[|allowed| - 1];
      Expression(allowed[..|allowed| - 1], body) + (if last in body then ", #" + last + " = :" + last else "")
  }

  /** The expression's attribute names: `#f` names `f`. */
  function NamesOf(allowed: seq<string>, body: Body): map<string, string> {
    if allowed == [] then map[]
    else
      var last := allowed[|allowed| - 1];
      var front := NamesOf(allowed[..|allowed| - 1], body);
      if last in body then front["#" + last := last] else front
  }

  /** The expression's attribute values: `:updatedAt` is the time, `:f` the stored value of `f`. */
  function ValuesOf(allowed: seq<string>, body: Body, now: string): map<string, Json> {
    if allowed == [] then map[":updatedAt" := JStr(now)]
    else
      var last := allowed[|allowed| - 1];
      var front := ValuesOf(allowed[..|allowed| - 1], body, now);
      if last in body then front[":" + last := StoredValue(last, body[last])] else front
  }

  /**
   * Builds the update for the attributes of `allowed` the body carries:
   * refused with the first value that does not convert, otherwise the
   * expression, names and values of all of them, and whether there was any.
   */
  method BuildUpdate(allowed: seq<string>, body: Body, now: string) returns (outcome: Outcome)
    ensures FirstInvalid(allowed, body).Some? ==> outcome == Refused(FirstInvalid(allowed, body).value)
    ensures FirstInvalid(allowed, body).None? ==>
      outcome == Planned(Expression(allowed, body), NamesOf(allowed, body), ValuesOf(allowed, body, now),
                         Given(allowed, body) != [])
  {
    var expression := "SET updatedAt = :updatedAt";
    var names: map<string, string> := map[];
    var values := map[":updatedAt" := JStr(now)];
    var hasUpdates := false;
    for i := 0 to |allowed|
      invariant FirstInvalid(allowed[..i], body).None?
      invariant expression == Expression(allowed[..i], body)
      invariant names == NamesOf(allowed[..i], body)
      invariant values == ValuesOf(allowed[..i], body, now)
      invariant hasUpdates == (Given(allowed[..i], body) != [])
    {
      var field := allowed[i];
      assert allowed[..i + 1][..i] == allowed[..i];
      if field in body {
        var v := Converted(field, body[field]);
        if v.None? {
          InvalidSticks(allowed, body, i + 1);
          return Refused(NotANumber(field));
        }
        expression := expression + ", #" + field + " = :" + field;
        names := names["#" + field := field];
        values := values[":" + field := v.value];
        hasUpdates := true;
      }
    }
    assert allowed[..|allowed|] == allowed;
    outcome := Planned(expression, names, values, hasUpdates);
  }

  /** Once a prefix of the allow-list holds a value that does not convert, the whole list is refused for it. */
  lemma {:induction false} InvalidSticks(allowed: seq<string>, body: Body, j: nat)
    requires j <= |allowed| && FirstInvalid(allowed[..j], body).Some?
    ensures FirstInvalid(allowed, body) == FirstInvalid(allowed[..j], body)
    decreases |allowed|
  {
    if j == |allowed| {
      assert allowed[..j] == allowed;
    } else {
      var front := allowed[..|allowed| - 1];
      assert front[..j] == allowed[..j];
      InvalidSticks(front, body, j);
    }
  }

  /** The attributes an update sets are the allowed ones the body carries. */
  lemma {:induction false} GivenMembers(allowed: seq<string>, body: Body)
    ensures forall f :: f in Given(allowed, body) <==> f in allowed && f in body
  {
    if allowed != [] {
      var front := allowed[..|allowed| - 1];
      GivenMembers(front, body);
      assert allowed == front + [allowed[|allowed| - 1]];
    }
  }

  /** The builder refuses exactly when some allowed attribute the body carries does not convert. */
  lemma {:induction false} FirstInvalidMeans(allowed: seq<string>, body: Body)
    ensures FirstInvalid(allowed, body).None? <==>
      forall f :: f in allowed && f in body ==> Converted(f, body[f]).Some?
  {
    if allowed != [] {
      var front := allowed[..|allowed| - 1];
      FirstInvalidMeans(front, body);
      assert allowed == front + [allowed[|allowed| - 1]];
    }
  }

  /** An allow-list without "price" and "inventory" is never refused. */
  lemma {:induction false} NoNumbersNoRefusal(allowed: seq<string>, body: Body)
    requires "price" !in allowed && "inventory" !in allowed
    ensures FirstInvalid(allowed, body).None?
  {
    if allowed != [] {
      NoNumbersNoRefusal(allowed[..|allowed| - 1], body);
      assert allowed[|allowed| - 1] in allowed;
    }
  }

  /** `p + a == p + b` only when `a == b`. */
  lemma Unprefixed(p: char, a: string, b: string)
    ensures [p] + a == [p] + b ==> a == b
  {
    if [p] + a == [p] + b {
      assert a == ([p] + a)[1..];
    }
  }

  /** Each name `#f` names `f`, and the named attributes are the allowed ones the body carries. */
  lemma {:induction false} NamesFacts(allowed: seq<string>, body: Body)
    ensures var names := NamesOf(allowed, body);
      && (forall n :: n in names ==> n == "#" + names[n])
      && (forall a :: a in names.Values <==> a in allowed && a in body)
  {
    if allowed != [] {
      var front, last := allowed[..|allowed| - 1], allowed[|allowed| - 1];
      NamesFacts(front, body);
      assert allowed == front + [last];
      if last in body {
        var before := NamesOf(front, body);
        var names := before["#" + last := last];
        forall a | a in before.Values && a != last ensures a in names.Values {
          var n :| n in before && before[n] == a;
          Unprefixed('#', a, last);
          assert names[n] == a;
        }
        forall a | a in names.Values ensures a in allowed && a in body {
          var n :| n in names && names[n] == a;
          if n != "#" + last {
            assert before[n] == a;
          }
        }
        assert names["#" + last] == last;
      }
    }
  }

  /** `:updatedAt` binds the time and `:f` binds the stored value of each allowed attribute `f` the body carries. */
  lemma {:induction false} ValuesFacts(allowed: seq<string>, body: Body, now: string)
    requires "updatedAt" !in allowed
    ensures var values := ValuesOf(allowed, body, now);
      && ":updatedAt" in values && values[":updatedAt"] == JStr(now)
      && (forall a :: a in allowed && a in body ==> ":" + a in values && values[":" + a] == StoredValue(a, body[a]))
  {
    if allowed != [] {
      var front, last := allowed[..|allowed| - 1], allowed[|allowed| - 1];
      ValuesFacts(front, body, now);
      assert allowed == front + [last];
      if last in body {
        var before := ValuesOf(front, body, now);
        forall a | a in front && a in body && a != last ensures ":" + a != ":" + last {
          Unprefixed(':', a, last);
        }
        assert ":updatedAt" != ":" + last by {
          assert ":updatedAt" == ":" + "updatedAt";
          Unprefixed(':', "updatedAt", last);
        }
      }
    }
  }

  /**
   * The item after the update: the allowed attributes the body carries take
   * their stored values, `updatedAt` is the time, and every other attribute
   * is kept.
   */
  function Updated(item: map<string, Json>, allowed: seq<string>, body: Body, now: string): map<string, Json> {
    item["updatedAt" := JStr(now)] + (map a | a in allowed && a in body :: StoredValue(a, body[a]))
  }

  /**
   * How the store applies a SET expression of this shape: `updatedAt` takes
   * `:updatedAt`, and each attribute `a` named by the names takes `:a`.
   */
  function ApplySet(item: map<string, Json>, names: map<string, string>, values: map<string, Json>): map<string, Json>
    requires ":updatedAt" in values
    requires forall a :: a in names.Values ==> ":" + a in values
  {
    item["updatedAt" := values[":updatedAt"]] + (map a | a in names.Values :: values[":" + a])
  }

  /**
   * Applying the built expression to an item gives the updated item: the
   * names and values the builder binds are exactly what the expression needs.
   */
  lemma PlanApplies(item: map<string, Json>, allowed: seq<string>, body: Body, now: string)
    requires "updatedAt" !in allowed
    ensures var names, values := NamesOf(allowed, body), ValuesOf(allowed, body, now);
      && ":updatedAt" in values && (forall a :: a in names.Values ==> ":" + a in values)
      && ApplySet(item, names, values) == Updated(item, allowed, body, now)
  {
    NamesFacts(allowed, body);
    ValuesFacts(allowed, body, now);
    var names, values := NamesOf(allowed, body), ValuesOf(allowed, body, now);
    var set1 := map a | a in names.Values :: values[":" + a];
    var set2 := map a | a in allowed && a in body :: StoredValue(a, body[a]);
    assert set1 == set2;
  }

  /**
   * An update changes exactly the allowed attributes the body carries, to
   * their converted values, and stamps `updatedAt`; every other attribute
   * keeps its value, and nothing is removed.
   */
  lemma UpdateEffect(item: map<string, Json>, allowed: seq<string>, body: Body, now: string)
    requires "updatedAt" !in allowed
    ensures var u := Updated(item, allowed, body, now);
      && (forall a :: a in u <==> a in item || a == "updatedAt" || a in Given(allowed, body))
      && u["updatedAt"] == JStr(now)
      && (forall a :: a in allowed && a in body ==> u[a] == StoredValue(a, body[a]))
      && (forall a :: a in item && a != "updatedAt" && a !in allowed ==> u[a] == item[a])
  {
    GivenMembers(allowed, body);
  }

  /**
   * An update the builder accepts never turns a numeric "price" or
   * "inventory" into anything else: what it writes there is a parsed number.
   */
  lemma NumbersStayNumbers(item: map<string, Json>, allowed: seq<string>, body: Body, now: string, attr: string)
    requires "updatedAt" !in allowed && FirstInvalid(allowed, body).None?
    requires attr == "price" || attr == "inventory"
    requires attr in item && item[attr].JNum?
    ensures attr in Updated(item, allowed, body, now) && Updated(item, allowed, body, now)[attr].JNum?
  {
    UpdateEffect(item, allowed, body, now);
    FirstInvalidMeans(allowed, body);
    if attr in allowed && attr in body {
      assert Converted(attr, body[attr]).Some?;
    }
  }
}
