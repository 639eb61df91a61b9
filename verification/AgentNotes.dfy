/**
 * The Conversation notes of the agent and the read-only questions asked about them
 * (ecom_agent/models/domain.py, ecom_agent/models/conversation.py, ecom_agent/flows.py, ecom_agent/tools/schema.py).
 */
module AgentNotes {
  import opened Wrappers

  datatype Tool =
    | SearchProducts | SelectProduct | GetProductDetails | SuggestProducts
    | CalculateShipping
    | GetOrderStatus | ConfirmOrder | ModifyOrder | CancelOrder
    | CreateOrder
    | EscalateConversation
    | UnknownTool(name: string)

  predicate ProductTool(t: Tool) {
    t.SearchProducts? || t.GetProductDetails? || t.SuggestProducts? || t.SelectProduct?
  }

  predicate ListTool(t: Tool) {
    t.SearchProducts? || t.SuggestProducts?
  }

  predicate OrderTool(t: Tool) {
    t.ConfirmOrder? || t.CancelOrder? || t.ModifyOrder? || t.GetOrderStatus?
  }

  /** The argument names the order cares about; every other one is told apart by its name. */
  datatype Field = ProductId | Quantity | Wilaya | Commune | Street | OtherField(name: string)

  datatype Value = Text(text: string) | Whole(n: int) | Decimal(r: real) | Flag(b: bool)

  type Args = map<Field, Value>

  /** What the arguments say in a text field; "" when they say nothing. */
  function TextAt(args: Args, f: Field): string {
    if f in args && args[f].Text? then args[f].text else ""
  }

  // ---- Schemas ----

  datatype FieldType = IntegerType | NumberType | BooleanType | OtherType

  /** The JSON schema type of a property; optional fields carry no "type" and are cast to text. */
  function Property(tool: Tool, f: Field): Option<FieldType> {
    match tool
    case CreateOrder =>
      if f.Quantity? then Some(IntegerType)
      else if f.OtherField? then None
      else Some(OtherType)
    case SearchProducts => if f == OtherField("product") then Some(OtherType) else None
    case SelectProduct => if f == ProductId || f == OtherField("productName") then Some(OtherType) else None
    case GetProductDetails => if f == ProductId || f == OtherField("productName") then Some(OtherType) else None
    case SuggestProducts =>
      if f.OtherField? && f.name in ["category", "color", "size", "minPrice", "maxPrice", "preferences"]
      then Some(OtherType) else None
    case CalculateShipping => if f == Wilaya then Some(OtherType) else None
    case ModifyOrder =>
      if f == OtherField("orderId") || f == Wilaya || f == Commune || f == Quantity then Some(OtherType) else None
    case GetOrderStatus => if f == OtherField("orderId") then Some(OtherType) else None
    case ConfirmOrder => if f == OtherField("orderId") then Some(OtherType) else None
    case CancelOrder => if f == OtherField("orderId") then Some(OtherType) else None
    case EscalateConversation => if f == OtherField("reason") then Some(OtherType) else None
    case UnknownTool(_) => None
  }

  function Required(tool: Tool): seq<Field> {
    match tool
    case CreateOrder => [ProductId, Quantity, Wilaya, Commune]
    case SearchProducts => [OtherField("product")]
    case CalculateShipping => [Wilaya]
    case EscalateConversation => [OtherField("reason")]
    case _ => []
  }

  /**
   * One value of the dictionary an LLM answered with, through the casts of coerce_args: whether it is "",
   * `str(v).strip()`, `int(float(v))`, `float(v)` and the boolean reading, where the cast works.
   */
  datatype Raw = Raw(empty: bool, text: string, whole: Option<int>, decimal: Option<real>, flag: Option<bool>)

  /** None is JSON null. */
  type RawArgs = map<Field, Option<Raw>>

  function Cast(raw: Option<Raw>, t: Option<FieldType>): Option<Value> {
    if t.None? || raw.None? || raw.value.empty then None
    else match t.value
      case IntegerType => if raw.value.whole.Some? then Some(Whole(raw.value.whole.value)) else None
      case NumberType => if raw.value.decimal.Some? then Some(Decimal(raw.value.decimal.value)) else None
      case BooleanType => if raw.value.flag.Some? then Some(Flag(raw.value.flag.value)) else None
      case OtherType => Some(Text(raw.value.text))
  }

  function Coerce(raw: RawArgs, tool: Tool): Args {
    map f | f in raw && Cast(raw[f], Property(tool, f)).Some? :: Cast(raw[f], Property(tool, f)).value
  }

  predicate IsMissing(args: Args, f: Field) {
    f !in args || args[f] == Text("")
  }

  function Missing(args: Args, fields: seq<Field>): seq<Field> {
    if fields == [] then []
    else (if IsMissing(args, fields[0]) then [fields[0]] else []) + Missing(args, fields[1..])
  }

  function MissingFields(args: Args, tool: Tool): seq<Field> {
    Missing(args, Required(tool))
  }

  // ---- The notes ----

  datatype Draft = Draft(tool: Tool, args: Args, ready: bool, attempts: nat, missing: seq<Field>, error: string)

  datatype Product = Product(id: string, name: string, price: real)

  datatype Discovery = Discovery(results: seq<Product>, selected: Option<Product>)

  datatype Flow = Flow(id: string, updatedAt: int, discovery: Option<Discovery>, draft: Option<Draft>)

  datatype Address = Address(wilaya: Option<string>, commune: Option<string>, street: Option<string>)

  datatype Notes = Notes(address: Address, flows: seq<Flow>, active: Option<string>)

  const NoAddress := Address(None, None, None)
  const EmptyNotes := Notes(NoAddress, [], None)

  /** Python truth of an optional text. */
  predicate Given(s: Option<string>) {
    s.Some? && s.value != ""
  }

  /** The first flow with this id. */
  function FlowAt(flows: seq<Flow>, id: string): (at: Option<nat>)
    ensures at.Some? ==> at.value < |flows| && flows[at.value].id == id
    ensures at.Some? ==> forall j :: 0 <= j < at.value ==> flows[j].id != id
    ensures at.None? ==> forall j :: 0 <= j < |flows| ==> flows[j].id != id
  {
    if flows == [] then None
    else if flows[0].id == id then Some(0)
    else match FlowAt(flows[1..], id)
      case None => None
      case Some(i) => Some(i + 1)
  }

  /** active_flow. */
  function ActiveFlow(notes: Notes, resolved: Option<string>): (at: Option<nat>)
    ensures at.Some? ==> at.value < |notes.flows|
  {
    var id := if Given(resolved) then resolved else notes.active;
    if Given(id) then FlowAt(notes.flows, id.value) else None
  }

  /** _find: the active flow, if it holds a Draft. */
  function Find(notes: Notes, resolved: Option<string>): (at: Option<nat>)
    ensures at.Some? ==> at.value < |notes.flows| && notes.flows[at.value].draft.Some?
  {
    var at := ActiveFlow(notes, resolved);
    if at.Some? && notes.flows[at.value].draft.Some? then at else None
  }

  predicate HasOrder(f: Flow) {
    f.draft.Some? && f.draft.value.tool == CreateOrder
  }

  predicate HasReady(f: Flow) {
    f.draft.Some? && f.draft.value.ready
  }

  /** has_open_order: only the active flow counts. */
  predicate HasOpenOrder(notes: Notes) {
    var at := Find(notes, None);
    at.Some? && HasOrder(notes.flows[at.value])
  }

  datatype DraftState = NoDraft | Collecting | Ready

  function StateOf(notes: Notes, resolved: Option<string>): DraftState {
    var at := Find(notes, resolved);
    if at.None? then NoDraft else if notes.flows[at.value].draft.value.ready then Ready else Collecting
  }

  // ---- Products ----

  predicate HasSelected(f: Flow) {
    f.discovery.Some? && f.discovery.value.selected.Some?
  }

  /** `max(picked, key=updated_at)`: the first of the latest flows with a selected product. */
  function LatestSelected(flows: seq<Flow>): (at: Option<nat>)
    ensures at.Some? ==> at.value < |flows| && HasSelected(flows[at.value])
    ensures at.Some? ==> forall j :: 0 <= j < |flows| && HasSelected(flows[j]) ==>
              if j < at.value then flows[j].updatedAt < flows[at.value].updatedAt
              else flows[j].updatedAt <= flows[at.value].updatedAt
    ensures at.None? ==> forall j :: 0 <= j < |flows| ==> !HasSelected(flows[j])
  {
    if flows == [] then None
    else
      var n := |flows| - 1;
      var before := LatestSelected(flows[..n]);
      if HasSelected(flows[n]) && (before.None? || flows[before.value].updatedAt < flows[n].updatedAt)
      then Some(n) else before
  }

  /** current_selected_product. */
  function SelectedProduct(notes: Notes): Option<Product> {
    match LatestSelected(notes.flows)
    case None => None
    case Some(i) => notes.flows[i].discovery.value.selected
  }

  function ClearedFlow(f: Flow): Flow {
    if f.discovery.Some? then f.(discovery := Some(f.discovery.value.(selected := None))) else f
  }

  /** clear_selected_product. */
  function Cleared(notes: Notes): Notes {
    notes.(flows := seq(|notes.flows|, i requires 0 <= i < |notes.flows| => ClearedFlow(notes.flows[i])))
  }

  function InsertByTime(f: Flow, sorted: seq<Flow>): seq<Flow> {
    if sorted == [] || f.updatedAt < sorted[0].updatedAt then [f] + sorted
    else [sorted[0]] + InsertByTime(f, sorted[1..])
  }

  /** `sorted(flows, key=updated_at)`, which keeps the order of equal keys. */
  function SortedByTime(flows: seq<Flow>): seq<Flow> {
    if flows == [] then []
    else InsertByTime(flows[|flows| - 1], SortedByTime(flows[..|flows| - 1]))
  }

  function Without(shown: seq<Product>, id: string): seq<Product> {
    if shown == [] then []
    else (if shown[0].id == id then [] else [shown[0]]) + Without(shown[1..], id)
  }

  /** A product shown again moves to the end. */
  function ShowAll(shown: seq<Product>, products: seq<Product>): seq<Product>
    decreases |products|
  {
    if products == [] then shown
    else ShowAll(Without(shown, products[0].id) + [products[0]], products[1..])
  }

  function ShowFlows(shown: seq<Product>, flows: seq<Flow>): seq<Product>
    decreases |flows|
  {
    if flows == [] then shown
    else ShowFlows(if flows[0].discovery.Some? then ShowAll(shown, flows[0].discovery.value.results) else shown,
                   flows[1..])
  }

  const MAX_SHOWN_PRODUCTS := 10

  /** shown_products. */
  function ShownProducts(notes: Notes): seq<Product> {
    var shown := ShowFlows([], SortedByTime(notes.flows));
    if |shown| <= MAX_SHOWN_PRODUCTS then shown else shown[|shown| - MAX_SHOWN_PRODUCTS..]
  }

  /** Every product id a flow of the notes mentions is in `ids`. */
  ghost predicate ProductsWithin(f: Flow, ids: set<string>) {
    f.discovery.Some? ==>
      && (forall i :: 0 <= i < |f.discovery.value.results| ==> f.discovery.value.results[i].id in ids)
      && (f.discovery.value.selected.Some? ==> f.discovery.value.selected.value.id in ids)
  }

  ghost predicate IdsWithin(products: seq<Product>, ids: set<string>) {
    forall i :: 0 <= i < |products| ==> products[i].id in ids
  }

  lemma {:induction false} WithoutStaysWithin(shown: seq<Product>, id: string, ids: set<string>)
    requires IdsWithin(shown, ids)
    ensures IdsWithin(Without(shown, id), ids)
  {
    if shown != [] {
      WithoutStaysWithin(shown[1..], id, ids);
    }
  }

  lemma {:induction false} ShowAllStaysWithin(shown: seq<Product>, products: seq<Product>, ids: set<string>)
    requires IdsWithin(shown, ids) && IdsWithin(products, ids)
    ensures IdsWithin(ShowAll(shown, products), ids)
    decreases |products|
  {
    if products != [] {
      WithoutStaysWithin(shown, products[0].id, ids);
      ShowAllStaysWithin(Without(shown, products[0].id) + [products[0]], products[1..], ids);
    }
  }

  lemma {:induction false} ShowFlowsStaysWithin(shown: seq<Product>, flows: seq<Flow>, ids: set<string>)
    requires IdsWithin(shown, ids) && forall i :: 0 <= i < |flows| ==> ProductsWithin(flows[i], ids)
    ensures IdsWithin(ShowFlows(shown, flows), ids)
    decreases |flows|
  {
    if flows != [] {
      var next := if flows[0].discovery.Some? then ShowAll(shown, flows[0].discovery.value.results) else shown;
      assert ProductsWithin(flows[0], ids);
      if flows[0].discovery.Some? {
        ShowAllStaysWithin(shown, flows[0].discovery.value.results, ids);
      }
      ShowFlowsStaysWithin(next, flows[1..], ids);
    }
  }

  lemma {:induction false} InsertKeeps(f: Flow, sorted: seq<Flow>)
    ensures multiset(InsertByTime(f, sorted)) == multiset(sorted) + multiset{f}
  {
    if sorted != [] && f.updatedAt >= sorted[0].updatedAt {
      InsertKeeps(f, sorted[1..]);
      assert sorted == [sorted[0]] + sorted[1..];
    }
  }

  lemma {:induction false} SortKeeps(flows: seq<Flow>)
    ensures multiset(SortedByTime(flows)) == multiset(flows)
  {
    if flows != [] {
      var n := |flows| - 1;
      SortKeeps(flows[..n]);
      InsertKeeps(flows[n], SortedByTime(flows[..n]));
      assert flows == flows[..n] + [flows[n]];
    }
  }

  /** The products the agent may name are products of the flows, whatever the order they were shown in. */
  lemma ShownComeFromFlows(notes: Notes, ids: set<string>)
    requires forall i :: 0 <= i < |notes.flows| ==> ProductsWithin(notes.flows[i], ids)
    ensures IdsWithin(ShownProducts(notes), ids)
    ensures SelectedProduct(notes).Some? ==> SelectedProduct(notes).value.id in ids
  {
    var sorted := SortedByTime(notes.flows);
    SortKeeps(notes.flows);
    forall i | 0 <= i < |sorted| ensures ProductsWithin(sorted[i], ids) {
      assert sorted[i] in multiset(sorted);
      assert sorted[i] in notes.flows;
    }
    ShowFlowsStaysWithin([], sorted, ids);
    var at := LatestSelected(notes.flows);
    if at.Some? {
      assert ProductsWithin(notes.flows[at.value], ids);
    }
  }

  ghost predicate DistinctIds(products: seq<Product>) {
    forall i, j :: 0 <= i < j < |products| ==> products[i].id != products[j].id
  }

  lemma {:induction false} WithoutDropsIt(shown: seq<Product>, id: string)
    ensures forall i :: 0 <= i < |Without(shown, id)| ==>
              Without(shown, id)[i].id != id && Without(shown, id)[i] in shown
    ensures DistinctIds(shown) ==> DistinctIds(Without(shown, id))
  {
    if shown != [] {
      WithoutDropsIt(shown[1..], id);
      var rest := Without(shown[1..], id);
      forall i | 0 <= i < |rest| ensures rest[i] in shown && (DistinctIds(shown) ==> rest[i].id != shown[0].id) {
        var k :| 0 <= k < |shown[1..]| && shown[1..][k] == rest[i];
        assert shown[k + 1] == rest[i];
      }
    }
  }

  lemma {:induction false} ShowAllIsDistinct(shown: seq<Product>, products: seq<Product>)
    requires DistinctIds(shown)
    ensures DistinctIds(ShowAll(shown, products))
    ensures products != [] ==> ShowAll(shown, products) != [] && Last(ShowAll(shown, products)) == Last(products)
    decreases |products|
  {
    if products != [] {
      WithoutDropsIt(shown, products[0].id);
      ShowAllIsDistinct(Without(shown, products[0].id) + [products[0]], products[1..]);
    }
  }

  function Last(products: seq<Product>): Product
    requires products != []
  {
    products[|products| - 1]
  }

  lemma {:induction false} ShowFlowsIsDistinct(shown: seq<Product>, flows: seq<Flow>)
    requires DistinctIds(shown)
    ensures DistinctIds(ShowFlows(shown, flows))
    decreases |flows|
  {
    if flows != [] {
      if flows[0].discovery.Some? {
        ShowAllIsDistinct(shown, flows[0].discovery.value.results);
      }
      ShowFlowsIsDistinct(if flows[0].discovery.Some? then ShowAll(shown, flows[0].discovery.value.results) else shown,
                          flows[1..]);
    }
  }

  /** At most ten products are shown, none twice. */
  lemma ShownAreDistinct(notes: Notes)
    ensures DistinctIds(ShownProducts(notes)) && |ShownProducts(notes)| <= MAX_SHOWN_PRODUCTS
  {
    ShowFlowsIsDistinct([], SortedByTime(notes.flows));
  }

  // ---- In which order products were shown ----

  ghost predicate InTimeOrder(flows: seq<Flow>) {
    forall i, j :: 0 <= i < j < |flows| ==> flows[i].updatedAt <= flows[j].updatedAt
  }

  /** The flows touched at this time, in their order. */
  function TouchedAt(flows: seq<Flow>, t: int): seq<Flow> {
    if flows == [] then [] else (if flows[0].updatedAt == t then [flows[0]] else []) + TouchedAt(flows[1..], t)
  }

  lemma {:induction false} InsertIsOrdered(f: Flow, sorted: seq<Flow>)
    requires InTimeOrder(sorted)
    ensures InTimeOrder(InsertByTime(f, sorted))
    ensures forall i :: 0 <= i < |InsertByTime(f, sorted)| ==>
              InsertByTime(f, sorted)[i] == f || InsertByTime(f, sorted)[i] in sorted
  {
    if sorted != [] && f.updatedAt >= sorted[0].updatedAt {
      InsertIsOrdered(f, sorted[1..]);
      var rest := InsertByTime(f, sorted[1..]);
      forall i | 0 <= i < |rest|
        ensures sorted[0].updatedAt <= rest[i].updatedAt && (rest[i] == f || rest[i] in sorted)
      {
        if rest[i] != f {
          var k :| 0 <= k < |sorted[1..]| && sorted[1..][k] == rest[i];
          assert sorted[k + 1] == rest[i];
        }
      }
    }
  }

  lemma {:induction false} InsertIsStable(f: Flow, sorted: seq<Flow>, t: int)
    requires InTimeOrder(sorted)
    ensures TouchedAt(InsertByTime(f, sorted), t) == TouchedAt(sorted, t) + if f.updatedAt == t then [f] else []
  {
    if sorted == [] || f.updatedAt < sorted[0].updatedAt {
      assert ([f] + sorted)[1..] == sorted;
      if f.updatedAt == t {
        NoneTouched(sorted, t);
      }
    } else {
      InsertIsStable(f, sorted[1..], t);
      var rest := InsertByTime(f, sorted[1..]);
      assert ([sorted[0]] + rest)[1..] == rest;
    }
  }

  lemma {:induction false} NoneTouched(flows: seq<Flow>, t: int)
    requires forall i :: 0 <= i < |flows| ==> flows[i].updatedAt > t
    ensures TouchedAt(flows, t) == []
  {
    if flows != [] {
      NoneTouched(flows[1..], t);
    }
  }

  lemma {:induction false} TouchedAppend(flows: seq<Flow>, f: Flow, t: int)
    ensures TouchedAt(flows + [f], t) == TouchedAt(flows, t) + if f.updatedAt == t then [f] else []
  {
    if flows != [] {
      assert (flows + [f])[1..] == flows[1..] + [f];
      TouchedAppend(flows[1..], f, t);
    }
  }

  /** The flows are sorted by the time they were touched, oldest first, and flows of one time keep their order. */
  lemma {:induction false} SortedByTimeIsStable(flows: seq<Flow>, t: int)
    ensures InTimeOrder(SortedByTime(flows)) && TouchedAt(SortedByTime(flows), t) == TouchedAt(flows, t)
  {
    if flows != [] {
      var n := |flows| - 1;
      SortedByTimeIsStable(flows[..n], t);
      InsertIsOrdered(flows[n], SortedByTime(flows[..n]));
      InsertIsStable(flows[n], SortedByTime(flows[..n]), t);
      TouchedAppend(flows[..n], flows[n], t);
      assert flows == flows[..n] + [flows[n]];
    }
  }

  /** Every product of the flows' lists, one after the other. */
  function Showings(flows: seq<Flow>): seq<Product> {
    if flows == [] then []
    else (if flows[0].discovery.Some? then flows[0].discovery.value.results else []) + Showings(flows[1..])
  }

  lemma {:induction false} ShowAllConcat(shown: seq<Product>, a: seq<Product>, b: seq<Product>)
    ensures ShowAll(shown, a + b) == ShowAll(ShowAll(shown, a), b)
    decreases |a|
  {
    if a == [] {
      assert a + b == b;
    } else {
      assert (a + b)[1..] == a[1..] + b;
      ShowAllConcat(Without(shown, a[0].id) + [a[0]], a[1..], b);
    }
  }

  lemma {:induction false} ShowFlowsIsShowAll(shown: seq<Product>, flows: seq<Flow>)
    ensures ShowFlows(shown, flows) == ShowAll(shown, Showings(flows))
    decreases |flows|
  {
    if flows != [] {
      var results := if flows[0].discovery.Some? then flows[0].discovery.value.results else [];
      ShowAllConcat(shown, results, Showings(flows[1..]));
      ShowFlowsIsShowAll(if flows[0].discovery.Some? then ShowAll(shown, results) else shown, flows[1..]);
    }
  }

  /** The ids shown after the last showing of this one. */
  function ShownSince(s: seq<Product>, id: string): set<string> {
    if s == [] then {}
    else if s[|s| - 1].id == id then {}
    else ShownSince(s[..|s| - 1], id) + {s[|s| - 1].id}
  }

  /** `p` is the last showing of its id. */
  predicate IsLastShowing(s: seq<Product>, p: Product) {
    s != [] && (s[|s| - 1] == p || (s[|s| - 1].id != p.id && IsLastShowing(s[..|s| - 1], p)))
  }

  ghost function IdsOf(products: seq<Product>): set<string> {
    set i | 0 <= i < |products| :: products[i].id
  }

  /** The products shown, without repetition, in the order of their last showing. */
  ghost predicate ByLastShowing(r: seq<Product>, s: seq<Product>) {
    && DistinctIds(r)
    && (forall p :: p in r <==> IsLastShowing(s, p))
    && forall k :: 0 <= k < |r| ==> IdsOf(r[k + 1..]) == ShownSince(s, r[k].id)
  }

  lemma IdsOfConcat(a: seq<Product>, b: seq<Product>)
    ensures IdsOf(a + b) == IdsOf(a) + IdsOf(b)
  {
    assert forall i :: 0 <= i < |a| ==> (a + b)[i] == a[i];
    assert forall i :: 0 <= i < |b| ==> (a + b)[|a| + i] == b[i];
  }

  lemma {:induction false} WithoutIds(r: seq<Product>, id: string)
    ensures IdsOf(Without(r, id)) == IdsOf(r) - {id}
    ensures forall p :: p in Without(r, id) <==> p in r && p.id != id
  {
    if r != [] {
      WithoutIds(r[1..], id);
      assert r == [r[0]] + r[1..];
      IdsOfConcat([r[0]], r[1..]);
      IdsOfConcat(if r[0].id == id then [] else [r[0]], Without(r[1..], id));
      assert IdsOf([r[0]]) == {r[0].id} by {
        assert [r[0]][0] == r[0];
      }
      assert IdsOf([]) == {};
    }
  }

  /** What follows a product that stays is what followed it before, less the one that goes. */
  lemma {:induction false} WithoutTail(r: seq<Product>, id: string, k: nat) returns (j: nat)
    requires k < |Without(r, id)|
    ensures j < |r| && r[j] == Without(r, id)[k] && IdsOf(Without(r, id)[k + 1..]) == IdsOf(r[j + 1..]) - {id}
  {
    var rest := Without(r[1..], id);
    if r[0].id != id && k == 0 {
      j := 0;
      assert ([r[0]] + rest)[1..] == rest;
      WithoutIds(r[1..], id);
    } else {
      var m := if r[0].id == id then k else k - 1;
      var i := WithoutTail(r[1..], id, m);
      j := i + 1;
      assert r[1..][i + 1..] == r[j + 1..];
      assert Without(r, id)[k + 1..] == rest[m + 1..];
    }
  }

  lemma {:induction false} ShowAllByLast(s: seq<Product>)
    ensures ByLastShowing(ShowAll([], s), s)
  {
    if s != [] {
      var n := |s| - 1;
      var before, x := s[..n], s[n];
      var earlier := ShowAll([], before);
      ShowAllByLast(before);
      assert s == before + [x];
      ShowAllConcat([], before, [x]);
      assert ShowAll(earlier, [x]) == Without(earlier, x.id) + [x] by {
        assert [x][1..] == [];
      }
      ShownAgain(earlier, before, x);
    }
  }

  lemma ShownAgain(r: seq<Product>, s: seq<Product>, x: Product)
    requires ByLastShowing(r, s)
    ensures ByLastShowing(Without(r, x.id) + [x], s + [x])
  {
    var w := Without(r, x.id);
    var all, after := s + [x], w + [x];
    assert all[..|s|] == s && all[|s|] == x;
    WithoutDropsIt(r, x.id);
    WithoutIds(r, x.id);
    forall k | 0 <= k < |after| ensures IdsOf(after[k + 1..]) == ShownSince(all, after[k].id) {
      if k < |w| {
        TailAgain(r, s, x, k);
      } else {
        assert after[k + 1..] == [];
      }
    }
    forall p ensures p in after <==> IsLastShowing(all, p) {
      assert p in after <==> p in w || p == x;
    }
  }

  lemma TailAgain(r: seq<Product>, s: seq<Product>, x: Product, k: nat)
    requires ByLastShowing(r, s) && k < |Without(r, x.id)| && Without(r, x.id)[k].id != x.id
    ensures var after := Without(r, x.id) + [x]; IdsOf(after[k + 1..]) == ShownSince(s + [x], after[k].id)
  {
    var w := Without(r, x.id);
    var j := WithoutTail(r, x.id, k);
    assert (w + [x])[k + 1..] == w[k + 1..] + [x];
    IdsOfConcat(w[k + 1..], [x]);
    assert IdsOf([x]) == {x.id} by {
      assert [x][0] == x;
    }
    assert ShownSince(s, r[j].id) == IdsOf(r[j + 1..]);
    assert (s + [x])[..|s|] == s;
  }

  lemma {:induction false} DistinctCount(r: seq<Product>)
    requires DistinctIds(r)
    ensures |IdsOf(r)| == |r|
  {
    if r == [] {
      assert IdsOf(r) == {};
    } else {
      DistinctCount(r[1..]);
      assert r == [r[0]] + r[1..];
      IdsOfConcat([r[0]], r[1..]);
      assert IdsOf([r[0]]) == {r[0].id} by {
        assert [r[0]][0] == r[0];
      }
      assert r[0].id !in IdsOf(r[1..]);
    }
  }

  /**
   * A product is among the shown ones exactly when this was the last showing of its id, flows taken by the time they
   * were touched, and fewer than ten other products were shown after it.
   */
  lemma ShownExactlyWhen(notes: Notes, p: Product)
    ensures var s := Showings(SortedByTime(notes.flows));
            p in ShownProducts(notes) <==> IsLastShowing(s, p) && |ShownSince(s, p.id)| < 10
  {
    var sorted := SortedByTime(notes.flows);
    ShowFlowsIsShowAll([], sorted);
    ShowAllByLast(Showings(sorted));
    LatestTen(ShowAll([], Showings(sorted)), Showings(sorted), p);
  }

  lemma LatestTen(r: seq<Product>, s: seq<Product>, p: Product)
    requires ByLastShowing(r, s)
    ensures var from := if |r| <= 10 then 0 else |r| - 10;
            p in r[from..] <==> IsLastShowing(s, p) && |ShownSince(s, p.id)| < 10
  {
    var from := if |r| <= 10 then 0 else |r| - 10;
    if p in r {
      var k :| 0 <= k < |r| && r[k] == p;
      AmongLast(r, from, k);
      TailCount(r, s, k);
    } else {
      assert forall i :: 0 <= i < |r[from..]| ==> r[from..][i] == r[from + i];
    }
  }

  lemma AmongLast(r: seq<Product>, from: nat, k: nat)
    requires DistinctIds(r) && from <= |r| && k < |r|
    ensures r[k] in r[from..] <==> k >= from
  {
    var tail := r[from..];
    assert forall i :: 0 <= i < |tail| ==> tail[i] == r[from + i];
    assert k >= from ==> tail[k - from] == r[k];
  }

  lemma TailCount(r: seq<Product>, s: seq<Product>, k: nat)
    requires ByLastShowing(r, s) && k < |r|
    ensures |ShownSince(s, r[k].id)| == |r| - k - 1
  {
    DistinctCount(r[k + 1..]);
  }
}
