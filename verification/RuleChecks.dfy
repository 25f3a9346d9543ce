/** The stateless business checks. A comparison that Python refuses raises, and a check that raises does not fire. */
module RuleChecks {
  import opened Basics
  import opened JsonValues
  import opened RulesEngine
  import Text

  /** `v < 0`. */
  function IsNegative(v: Json): Finding {
    match v
    case Num(n) => if n < 0.0 then Fires else Quiet
    case Infinity(negative) => if negative then Fires else Quiet
    case NotANumber => Quiet
    case Bool(_) => Quiet
    case _ => Raises
  }

  /** `v > available`. */
  function Exceeds(v: Json, available: int): Finding {
    match v
    case Num(n) => if n > available as real then Fires else Quiet
    case Infinity(negative) => if negative then Quiet else Fires
    case NotANumber => Quiet
    case Bool(b) => if (if b then 1 else 0) > available then Fires else Quiet
    case _ => Raises
  }

  /** Short-circuit `or` over findings. */
  function OrElse(a: Finding, b: Finding): Finding { if a == Quiet then b else a }

  /** The outcome of a loop that returns at the first item that fires and is broken off by the first that raises. */
  function FirstDecisive(items: seq<Json>, check: Json -> Finding): Finding {
    if items == [] then Quiet else OrElse(check(items[0]), FirstDecisive(items[1..], check))
  }

  /** Such a loop has an outcome other than quiet exactly when some item has it and every earlier item is quiet. */
  lemma {:induction false} FirstDecisiveExactly(items: seq<Json>, check: Json -> Finding, outcome: Finding)
    requires outcome != Quiet
    ensures FirstDecisive(items, check) == outcome
            <==> exists i | 0 <= i < |items| :: check(items[i]) == outcome && forall j | 0 <= j < i ::
              check(items[j]) == Quiet
  {
    if items == [] {
    } else {
      var rest := items[1..];
      FirstDecisiveExactly(rest, check, outcome);
      if FirstDecisive(items, check) == outcome {
        if check(items[0]) == Quiet {
          var i :| 0 <= i < |rest| && check(rest[i]) == outcome && forall j | 0 <= j < i :: check(rest[j]) == Quiet;
          assert check(items[i + 1]) == outcome && forall j | 0 <= j < i + 1 :: check(items[j]) == Quiet by {
            assert forall j | 0 < j < i + 1 :: items[j] == rest[j - 1];
          }
        }
      }
      if i :| 0 <= i < |items| && check(items[i]) == outcome && forall j | 0 <= j < i :: check(items[j]) == Quiet {
        if 0 < i {
          assert check(rest[i - 1]) == outcome && forall j | 0 <= j < i - 1 :: check(rest[j]) == Quiet by {
            assert forall j | 0 <= j < i - 1 :: rest[j] == items[j + 1];
          }
        }
      }
    }
  }

  // ---------------------------------------------------------------- R001, negative price

  predicate PostsOrder(r: Request) { r.verb == "POST" && StartsWith(r.path, "/api/orders") }

  function NegativeItem(item: Json): Finding {
    if !item.Obj? then Quiet
    else OrElse(IsNegative(LookupOr(item.fields, "price", Num(0.0))),
                OrElse(IsNegative(LookupOr(item.fields, "unit_price", Num(0.0))),
                       IsNegative(LookupOr(item.fields, "quantity", Num(0.0)))))
  }

  function ItemsOf(body: Json): seq<Json> {
    if !body.Obj? then [] else
    var items := LookupOr(body.fields, "items", Arr([]));
    if items.Arr? then items.items else []
  }

  function NegativePrice(r: Request): Finding {
    if !PostsOrder(r) || !r.body.Obj? then Quiet
    else OrElse(IsNegative(LookupOr(r.body.fields, "total_amount", Num(0.0))),
        FirstDecisive(ItemsOf(r.body), NegativeItem))
  }

  /** The rule fires exactly on a posted order whose total is negative, or whose total is fine and whose first item
      that is not fine has a negative price, unit price or quantity. */
  lemma NegativePriceExactly(r: Request)
    ensures NegativePrice(r) == Fires <==>
              && PostsOrder(r) && r.body.Obj?
              && var total := IsNegative(LookupOr(r.body.fields, "total_amount", Num(0.0)));
                 var items := ItemsOf(r.body);
                 || total == Fires
                 || (total == Quiet
                     && exists i | 0 <= i < |items| ::
                          NegativeItem(items[i]) == Fires && forall j | 0 <= j < i :: NegativeItem(items[j]) == Quiet)
  {
    FirstDecisiveExactly(ItemsOf(r.body), NegativeItem, Fires);
    hide NegativeItem, ItemsOf, PostsOrder;
  }

  /** A posted order with a negative item goes unnoticed exactly when the total is not a number, or some item raises
      before any fires: the exception ends the check. */
  lemma NegativeItemUnnoticedExactly(r: Request, k: nat)
    requires PostsOrder(r) && r.body.Obj? && k < |ItemsOf(r.body)| && NegativeItem(ItemsOf(r.body)[k]) == Fires
    ensures NegativePrice(r) != Fires <==>
              || IsNegative(LookupOr(r.body.fields, "total_amount", Num(0.0))) == Raises
              || (&& IsNegative(LookupOr(r.body.fields, "total_amount", Num(0.0))) == Quiet
                  && exists i | 0 <= i < k ::
                       && NegativeItem(ItemsOf(r.body)[i]) == Raises
                       && forall j | 0 <= j < i :: NegativeItem(ItemsOf(r.body)[j]) == Quiet)
  {
    var items := ItemsOf(r.body);
    FirstDecisiveExactly(items, NegativeItem, Fires);
    FirstDecisiveExactly(items, NegativeItem, Raises);
    hide NegativeItem, ItemsOf, PostsOrder, FirstDecisive, IsNegative, LookupOr;
    QuietBefore(items, k);
  }

  /** If some item is not quiet, the loop's outcome is not quiet either. */
  lemma {:induction false} QuietBefore(items: seq<Json>, k: nat)
    requires k < |items| && NegativeItem(items[k]) != Quiet
    ensures FirstDecisive(items, NegativeItem) != Quiet
  {
    hide NegativeItem;
    if 0 < k {
      QuietBefore(items[1..], k - 1);
    }
  }

  /** Such an order exists: a textual price in front of a negative one. */
  lemma TextPriceHidesNegative(r: Request)
    requires PostsOrder(r)
    requires r.body == Obj([Field("items", Arr([Obj([Field("price", Str("1"))]), Obj([Field("price", Num(-1.0))])]))])
    ensures NegativePrice(r) == Raises && exists i | 0 <= i < |ItemsOf(r.body)| ::
            NegativeItem(ItemsOf(r.body)[i]) == Fires
  {
    var items := [Obj([Field("price", Str("1"))]), Obj([Field("price", Num(-1.0))])];
    assert LookupOr(r.body.fields, "total_amount", Num(0.0)) == Num(0.0);
    assert ItemsOf(r.body) == items;
    assert NegativeItem(items[0]) == Raises && NegativeItem(items[1]) == Fires;
  }

  // ---------------------------------------------------------------- R003, inventory depletion

  /** The product and quantity an item names. `parseInt` is Python's `int` on text. */
  function Demand(item: Json, parseInt: string -> Option<int>): (Json, Json) {
    match item
    case Obj(fields) =>
      (Or(Or(LookupOr(fields, "sku", Null), LookupOr(fields, "name", Null)), LookupOr(fields, "item_id", Null)),
       LookupOr(fields, "quantity", Num(1.0)))
    case Str(text) =>
      var parts := Text.Split(text, ':');
      if |parts| == 1 then (Str(Text.Strip(text)), Num(1.0))
      else
        var n := parseInt(parts[1]);
        (Str(Text.Strip(parts[0])), Num(if n.Some? then n.value as real else 1.0))
    case _ => (Null, Num(1.0))
  }

  function ItemDepletes(inventory: map<string, int>, parseInt: string -> Option<int>, item: Json): Finding {
    var (product, quantity) := Demand(item, parseInt);
    if !Truthy(product) then Quiet
    else match product
      case Str(name) => if name in inventory then Exceeds(quantity, inventory[name]) else Quiet
      case Arr(_) => Raises
      case Obj(_) => Raises
      case _ => Quiet
  }

  function Depletes(inventory: map<string, int>, parseInt: string -> Option<int>, r: Request): Finding {
    if !PostsOrder(r) || !r.body.Obj? then Quiet
    else FirstDecisive(ItemsOf(r.body), (item: Json) => ItemDepletes(inventory, parseInt, item))
  }

  /** The rule fires exactly when some item asks for more of a known product than there is and every earlier item is
      quiet. */
  lemma DepletesExactly(inventory: map<string, int>, parseInt: string -> Option<int>, r: Request)
    ensures Depletes(inventory, parseInt, r) == Fires <==>
              && PostsOrder(r) && r.body.Obj?
              && exists i | 0 <= i < |ItemsOf(r.body)| ::
                   var (product, quantity) := Demand(ItemsOf(r.body)[i], parseInt);
                   && product.Str? && product.text != "" && product.text in inventory
                   && Exceeds(quantity, inventory[product.text]) == Fires
                   && forall j | 0 <= j < i :: ItemDepletes(inventory, parseInt, ItemsOf(r.body)[j]) == Quiet
  {
    FirstDecisiveExactly(ItemsOf(r.body), (item: Json) => ItemDepletes(inventory, parseInt, item), Fires);
    hide ItemsOf, PostsOrder, Demand, FirstDecisive;
  }

  // ---------------------------------------------------------------- R004 and R005

  function Escalation(r: Request): Finding {
    if !StartsWith(r.path, "/api/users") || !(r.verb == "POST" || r.verb == "PUT") || !r.body.Obj? then Quiet
    else if Lookup(r.body.fields, "role") == Some(Str("admin")) && r.role != "admin" then Fires
    else Quiet
  }

  function OutOfSequence(r: Request): Finding {
    if PostsOrder(r) && (!r.authenticated || r.userId == "") then Fires else Quiet
  }

  // ---------------------------------------------------------------- the checks in figures

  /** What counts as negative, as too much, and as no number. */
  lemma NumbersTell(v: Json, available: int)
    ensures IsNegative(v) == Fires <==> (v.Num? && v.number < 0.0) || v == Infinity(true)
    ensures IsNegative(v) == Raises <==> v.Null? || v.Str? || v.Arr? || v.Obj?
    ensures Exceeds(v, available) == Fires <==>
              || (v.Num? && v.number > available as real) || v == Infinity(false)
              || (v == Bool(true) && available < 1) || (v == Bool(false) && available < 0)
    ensures Exceeds(v, available) == Raises <==> v.Null? || v.Str? || v.Arr? || v.Obj?
  {
  }

  /** An item is negative by its price, its unit price or its quantity, in this order; an earlier one that is no number
      ends the check. Absent ones are zero, and what is no object is no item. */
  lemma NegativeItemExactly(item: Json)
    ensures NegativeItem(item) == Fires <==>
              && item.Obj?
              && var price := IsNegative(LookupOr(item.fields, "price", Num(0.0)));
                 var unit := IsNegative(LookupOr(item.fields, "unit_price", Num(0.0)));
                 var quantity := IsNegative(LookupOr(item.fields, "quantity", Num(0.0)));
                 || price == Fires || (price == Quiet && unit == Fires)
                 || (price == Quiet && unit == Quiet && quantity == Fires)
    ensures forall fields, items | Lookup(fields, "items") == Some(Arr(items)) :: ItemsOf(Obj(fields)) == items
    ensures forall r: Request :: PostsOrder(r) <==> r.verb == "POST" && StartsWith(r.path, "/api/orders")
  {
    hide IsNegative;
  }

  /** The product an item names is its first of sku, name and item_id that is not empty, and its quantity one by
      default. */
  lemma DemandOfObject(fields: seq<Field>, parseInt: string -> Option<int>)
    ensures var (product, quantity) := Demand(Obj(fields), parseInt);
            var sku, name := LookupOr(fields, "sku", Null), LookupOr(fields, "name", Null);
            && (Truthy(sku) ==> product == sku) && (!Truthy(sku) && Truthy(name) ==> product == name)
            && (!Truthy(sku) && !Truthy(name) ==> product == LookupOr(fields, "item_id", Null))
            && (Lookup(fields, "quantity") == None ==> quantity == Num(1.0))
            && (Lookup(fields, "quantity").Some? ==> quantity == Lookup(fields, "quantity").value)
  {
  }

  /** A textual item names its product before the first colon and its quantity, if that is a number, up to the next. */
  lemma DemandOfText(name: string, count: string, tail: string, parseInt: string -> Option<int>)
    requires ':' !in name && ':' !in count && (tail == "" || tail[0] == ':')
    ensures Demand(Str(name), parseInt) == (Str(Text.Strip(name)), Num(1.0))
    ensures Demand(Str(name + [':'] + (count + tail)), parseInt)
            == (Str(Text.Strip(name)), Num(if parseInt(count).Some? then parseInt(count).value as real else 1.0))
  {
    NoColonSplit(name);
    PartsOfText(name, count, tail);
    hide Text.Strip, Text.Split;
  }

  lemma NoColonSplit(name: string)
    requires ':' !in name
    ensures Text.Split(name, ':') == [name]
  {
    Text.BeforeAll(name, ':');
  }

  lemma PartsOfText(name: string, count: string, tail: string)
    requires ':' !in name && ':' !in count && (tail == "" || tail[0] == ':')
    ensures var parts := Text.Split(name + [':'] + (count + tail), ':');
            |parts| >= 2 && parts[0] == name && parts[1] == count
  {
    Text.SplitCut(name, count + tail, ':');
    if tail == "" {
      NoColonSplit(count);
      assert count + tail == count;
    } else {
      Text.SplitCut(count, tail[1..], ':');
      assert count + tail == count + [':'] + tail[1..];
    }
    hide Text.Split;
  }

  /** The two remaining checks: granting oneself the admin role, and posting an order without a principal. */
  lemma RoleAndSequenceExactly(r: Request)
    ensures Escalation(r) == Fires <==>
              && StartsWith(r.path, "/api/users") && r.verb in {"POST", "PUT"} && r.body.Obj?
              && Lookup(r.body.fields, "role") == Some(Str("admin")) && r.role != "admin"
    ensures OutOfSequence(r) == Fires <==>
              && r.verb == "POST" && StartsWith(r.path, "/api/orders") && (!r.authenticated || r.userId == "")
    ensures Escalation(r) != Raises && OutOfSequence(r) != Raises
  {
  }

  /** The rules of config/rules.yaml with their own checks. */
  function AllRules(inventory: map<string, int>, parseInt: string -> Option<int>): seq<Rule> {
    Shipped(NegativePrice, r => Depletes(inventory, parseInt, r), Escalation, OutOfSequence)
  }
}
