/**
 * The Draft: a tool call the agent is still filling in (ecom_agent/drafts.py).
 *
 * The functions give the notes after each operation; the class Book updates the notes in place, as the code
 * does, and is proved against them.  What an LLM extracted is an arbitrary input.  Two names of a wilaya or a
 * commune are the same place when an arbitrary key function maps them to the same key.
 */
module Drafts {
  import opened Wrappers
  import opened AgentNotes

  type NameKey = string -> string

  /** What the two extraction calls of one Turn returned; address values are stripped, "" when absent. */
  datatype Heard = Heard(args: RawArgs, address: map<Field, string>)

  const MAX_STALLED_TURNS := 3

  const ADDRESS_FIELDS := [Wilaya, Commune, Street]

  function AddressAt(a: Address, f: Field): Option<string> {
    match f
    case Wilaya => a.wilaya
    case Commune => a.commune
    case Street => a.street
    case _ => None
  }

  function SetAddress(a: Address, f: Field, s: string): Address {
    match f
    case Wilaya => a.(wilaya := Some(s))
    case Commune => a.(commune := Some(s))
    case Street => a.(street := Some(s))
    case _ => a
  }

  /** _missing_address: only createOrder needs the address. */
  function MissingAddress(tool: Tool, a: Address): seq<Field> {
    if tool != CreateOrder then []
    else
      (if Given(a.wilaya) then [] else [Wilaya])
      + (if Given(a.commune) then [] else [Commune])
      + (if Given(a.street) then [] else [Street])
  }

  predicate KnownProduct(notes: Notes, id: string) {
    || (exists i :: 0 <= i < |ShownProducts(notes)| && ShownProducts(notes)[i].id == id)
    || (SelectedProduct(notes).Some? && SelectedProduct(notes).value.id == id)
  }

  /** _drop_unknown_product: a made-up product id is not kept. */
  function DropUnknownProduct(notes: Notes, tool: Tool, extracted: Args): Args {
    if tool == CreateOrder && ProductId in extracted
       && !(extracted[ProductId].Text? && KnownProduct(notes, extracted[ProductId].text))
    then extracted - {ProductId}
    else extracted
  }

  /** _fill_selected_product. */
  function FillSelectedProduct(notes: Notes, tool: Tool, args: Args): Args {
    if tool == CreateOrder && TextAt(args, ProductId) == "" && SelectedProduct(notes).Some?
    then args[ProductId := Text(SelectedProduct(notes).value.id)]
    else args
  }

  // ---- The delivery address ----

  /** A known name is replaced by the name of another place. */
  predicate Moves(key: NameKey, known: Option<string>, name: string) {
    name != "" && Given(known) && key(known.value) != key(name)
  }

  function Renamed(key: NameKey, known: Option<string>, name: string): Option<string> {
    if name == "" || (Given(known) && key(known.value) == key(name)) then known else Some(name)
  }

  predicate MovesAnywhere(key: NameKey, a: Address, extracted: Args) {
    Moves(key, a.wilaya, TextAt(extracted, Wilaya)) || Moves(key, a.commune, TextAt(extracted, Commune))
  }

  /** The saved street is now wrong: the place changed, and not only the commune of an order that failed. */
  predicate Relocates(key: NameKey, a: Address, error: string, extracted: Args) {
    && MovesAnywhere(key, a, extracted)
    && !(error != "" && !Moves(key, a.wilaya, TextAt(extracted, Wilaya)))
  }

  /** _sync_address, the notes. */
  function SyncedAddress(key: NameKey, a: Address, error: string, extracted: Args): Address {
    var street := TextAt(extracted, Street);
    Address(
      Renamed(key, a.wilaya, TextAt(extracted, Wilaya)),
      Renamed(key, a.commune, TextAt(extracted, Commune)),
      if street != "" then Some(street)
      else if Relocates(key, a, error, extracted) then None
      else a.street)
  }

  /** _sync_address, the arguments: a wrong street is dropped from them too. */
  function SyncedArgs(key: NameKey, a: Address, error: string, extracted: Args, args: Args): Args {
    if Relocates(key, a, error, extracted) && TextAt(extracted, Street) == "" then args - {Street} else args
  }

  /** _collect_address: only the missing fields are filled. */
  function CollectAddress(a: Address, missing: seq<Field>, heard: map<Field, string>): Address
    decreases |missing|
  {
    if missing == [] then a
    else
      var f := missing[0];
      CollectAddress(if f in heard && heard[f] != "" then SetAddress(a, f, heard[f]) else a, missing[1..], heard)
  }

  // ---- collect ----

  /** What one call of collect makes of a Draft and of the saved address. */
  datatype Intake = Intake(draft: Draft, address: Address)

  function Extracted(notes: Notes, draft: Draft, heard: Heard): Args {
    DropUnknownProduct(notes, draft.tool, Coerce(heard.args, draft.tool))
  }

  function TakenArgs(key: NameKey, notes: Notes, draft: Draft, heard: Heard): Args {
    var extracted := Extracted(notes, draft, heard);
    var args := FillSelectedProduct(notes, draft.tool, draft.args + extracted);
    if draft.tool == CreateOrder then SyncedArgs(key, notes.address, draft.error, extracted, args) else args
  }

  function SyncedByDraft(key: NameKey, notes: Notes, draft: Draft, heard: Heard): Address {
    if draft.tool == CreateOrder
    then SyncedAddress(key, notes.address, draft.error, Extracted(notes, draft, heard))
    else notes.address
  }

  function TakenAddress(key: NameKey, notes: Notes, draft: Draft, heard: Heard): Address {
    var a := SyncedByDraft(key, notes, draft, heard);
    CollectAddress(a, MissingAddress(draft.tool, a), heard.address)
  }

  /** The street the customer gave in this Turn, if any. */
  function StreetHeard(key: NameKey, notes: Notes, draft: Draft, heard: Heard): Option<string> {
    if draft.tool != CreateOrder then None
    else
      var street := TextAt(Extracted(notes, draft, heard), Street);
      if street != "" then Some(street)
      else if Street in MissingAddress(draft.tool, SyncedByDraft(key, notes, draft, heard))
              && Street in heard.address && heard.address[Street] != ""
      then Some(heard.address[Street])
      else None
  }

  function Judged(draft: Draft, args: Args, missing: seq<Field>, changed: bool): Draft {
    var d := draft.(args := args, missing := missing,
                    attempts := if changed then 0 else draft.attempts + 1,
                    error := if changed then "" else draft.error);
    if missing == [] && d.error == "" then d.(ready := true) else d
  }

  function TakeIn(key: NameKey, notes: Notes, draft: Draft, heard: Heard): Intake {
    var args := TakenArgs(key, notes, draft, heard);
    var address := TakenAddress(key, notes, draft, heard);
    var changed := args != draft.args || address != notes.address;
    var missing := MissingFields(args, draft.tool) + MissingAddress(draft.tool, address);
    Intake(Judged(draft, args, missing, changed), address)
  }

  function PutDraft(notes: Notes, at: nat, draft: Option<Draft>, now: int): Notes
    requires at < |notes.flows|
  {
    notes.(flows := notes.flows[at := notes.flows[at].(draft := draft, updatedAt := now)])
  }

  /** The flow collect works on; None when there is nothing to collect. */
  function ToCollect(notes: Notes, resolved: Option<string>): (at: Option<nat>)
    ensures at.Some? ==> at == Find(notes, resolved)
    ensures at.Some? ==> at.value < |notes.flows| && notes.flows[at.value].draft.Some?
    ensures at.Some? ==>
              !notes.flows[at.value].draft.value.ready && !notes.flows[at.value].draft.value.tool.UnknownTool?
  {
    var at := Find(notes, resolved);
    if at.Some? && !notes.flows[at.value].draft.value.ready && !notes.flows[at.value].draft.value.tool.UnknownTool?
    then at else None
  }

  function Collected(key: NameKey, notes: Notes, at: nat, heard: Heard, now: int): Notes
    requires at < |notes.flows| && notes.flows[at].draft.Some?
  {
    var intake := TakeIn(key, notes, notes.flows[at].draft.value, heard);
    PutDraft(notes, at, Some(intake.draft), now).(address := intake.address)
  }

  // ---- The other operations ----

  function NewDraft(tool: Tool): Draft {
    Draft(tool, map[], false, 0, [], "")
  }

  predicate StartsNew(f: Flow, tool: Option<Tool>) {
    tool.Some? && (f.draft.None? || f.draft.value.tool != tool.value)
  }

  /** start: a Draft for the same tool stays. */
  function Started(f: Flow, tool: Option<Tool>): Flow {
    if StartsNew(f, tool) then f.(draft := Some(NewDraft(tool.value))) else f
  }

  /** ready_call: the arguments of the call a ready Draft makes. */
  function CallArgs(notes: Notes, draft: Draft): Args {
    if draft.tool == CreateOrder && TextAt(draft.args, Street) == "" && Given(notes.address.street)
    then draft.args[Street := Text(notes.address.street.value)]
    else draft.args
  }

  function Reopened(notes: Notes, resolved: Option<string>, error: string, now: int): Notes {
    var at := Find(notes, resolved);
    if at.None? then notes
    else PutDraft(notes, at.value, Some(notes.flows[at.value].draft.value.(ready := false, error := error)), now)
  }

  function Closed(notes: Notes, resolved: Option<string>, now: int): Notes {
    var at := Find(notes, resolved);
    if at.None? then notes else PutDraft(notes, at.value, None, now)
  }

  /** give_up removes the Draft. */
  predicate IsStuck(notes: Notes, resolved: Option<string>) {
    var at := Find(notes, resolved);
    at.Some? && !notes.flows[at.value].draft.value.ready
    && notes.flows[at.value].draft.value.attempts >= MAX_STALLED_TURNS
  }

  // ---- What collecting guarantees ----

  /** The values of an order Draft have the types of the schema. */
  predicate OrderTyped(args: Args) {
    && (forall f :: f in args && f in [ProductId, Wilaya, Commune, Street] ==> args[f].Text?)
    && (Quantity in args ==> args[Quantity].Whole?)
  }

  lemma CoercedIsTyped(raw: RawArgs)
    ensures OrderTyped(Coerce(raw, CreateOrder))
  {
  }

  lemma TakenArgsAreTyped(key: NameKey, notes: Notes, draft: Draft, heard: Heard)
    requires draft.tool == CreateOrder && OrderTyped(draft.args)
    ensures OrderTyped(TakenArgs(key, notes, draft, heard))
  {
    CoercedIsTyped(heard.args);
  }

  /** Everything an order needs is known. */
  predicate OrderComplete(args: Args) {
    && TextAt(args, ProductId) != ""
    && Quantity in args && args[Quantity].Whole?
    && TextAt(args, Wilaya) != ""
    && TextAt(args, Commune) != ""
  }

  lemma NothingMissing(args: Args)
    requires OrderTyped(args) && MissingFields(args, CreateOrder) == []
    ensures OrderComplete(args)
  {
    var r := Required(CreateOrder);
    assert r[1..] == [Quantity, Wilaya, Commune] && r[1..][1..] == [Wilaya, Commune]
           && r[1..][1..][1..] == [Commune];
    assert Missing(args, r) == (if IsMissing(args, ProductId) then [ProductId] else []) + Missing(args, r[1..]);
    assert Missing(args, r[1..])
           == (if IsMissing(args, Quantity) then [Quantity] else []) + Missing(args, r[1..][1..]);
    assert Missing(args, r[1..][1..])
           == (if IsMissing(args, Wilaya) then [Wilaya] else []) + Missing(args, r[1..][1..][1..]);
  }

  /** What a Draft found ready by its missing fields can rely on. */
  lemma JudgedReady(notes: Notes, draft: Draft, args: Args, changed: bool)
    requires draft.tool == CreateOrder && !draft.ready && OrderTyped(args)
    ensures var missing := MissingFields(args, CreateOrder) + MissingAddress(CreateOrder, notes.address);
            var d := Judged(draft, args, missing, changed);
            d.ready ==>
              && OrderComplete(d.args) && d.error == ""
              && Given(notes.address.wilaya) && Given(notes.address.commune) && Given(notes.address.street)
              && OrderComplete(CallArgs(notes, d)) && TextAt(CallArgs(notes, d), Street) != ""
  {
    var missing := MissingFields(args, CreateOrder) + MissingAddress(CreateOrder, notes.address);
    if missing == [] {
      assert MissingFields(args, CreateOrder) == [] && MissingAddress(CreateOrder, notes.address) == [];
      NothingMissing(args);
    }
  }

  /** A Draft that collect leaves ready has every argument and the whole address, and no pending error. */
  lemma ReadyIsComplete(key: NameKey, notes: Notes, draft: Draft, heard: Heard)
    requires draft.tool == CreateOrder && OrderTyped(draft.args) && !draft.ready
    ensures var intake := TakeIn(key, notes, draft, heard);
            var after := notes.(address := intake.address);
            intake.draft.ready ==>
              && OrderComplete(intake.draft.args) && intake.draft.error == ""
              && Given(intake.address.wilaya) && Given(intake.address.commune) && Given(intake.address.street)
              && OrderComplete(CallArgs(after, intake.draft)) && TextAt(CallArgs(after, intake.draft), Street) != ""
  {
    TakenArgsAreTyped(key, notes, draft, heard);
    var args, address := TakenArgs(key, notes, draft, heard), TakenAddress(key, notes, draft, heard);
    JudgedReady(notes.(address := address), draft, args, args != draft.args || address != notes.address);
  }

  lemma {:induction false} NothingMissingAt(args: Args, fields: seq<Field>)
    ensures Missing(args, fields) == [] <==> forall f :: f in fields ==> !IsMissing(args, f)
  {
    if fields != [] {
      NothingMissingAt(args, fields[1..]);
      assert fields == [fields[0]] + fields[1..];
    }
  }

  /**
   * A Draft is ready after a collect exactly when every required argument is there, for an order the whole address too,
   * and no error is pending; only news clears an error, and only its absence counts as a stall.
   */
  lemma ReadyExactlyWhen(key: NameKey, notes: Notes, draft: Draft, heard: Heard)
    requires !draft.ready
    ensures var intake := TakeIn(key, notes, draft, heard);
            var news := intake.draft.args != draft.args || intake.address != notes.address;
            && (intake.draft.ready <==>
                  && (forall f :: f in Required(draft.tool) ==> !IsMissing(intake.draft.args, f))
                  && (draft.tool == CreateOrder ==>
                        Given(intake.address.wilaya) && Given(intake.address.commune) && Given(intake.address.street))
                  && (news || draft.error == ""))
            && intake.draft.error == (if news then "" else draft.error)
            && intake.draft.attempts == (if news then 0 else draft.attempts + 1)
            && intake.draft.tool == draft.tool
  {
    NothingMissingAt(TakenArgs(key, notes, draft, heard), Required(draft.tool));
  }

  lemma {:induction false} CollectAddressAt(a: Address, missing: seq<Field>, heard: map<Field, string>, f: Field)
    requires forall i, j :: 0 <= i < j < |missing| ==> missing[i] != missing[j]
    requires f in ADDRESS_FIELDS
    ensures AddressAt(CollectAddress(a, missing, heard), f)
            == if f in missing && f in heard && heard[f] != "" then Some(heard[f]) else AddressAt(a, f)
    decreases |missing|
  {
    if missing != [] {
      var g := missing[0];
      assert forall i :: 0 <= i < |missing[1..]| ==> missing[1..][i] != g;
      CollectAddressAt(if g in heard && heard[g] != "" then SetAddress(a, g, heard[g]) else a, missing[1..], heard, f);
      assert f in missing <==> f == g || f in missing[1..];
    }
  }

  lemma MissingAddressAt(a: Address, f: Field)
    requires f in ADDRESS_FIELDS
    ensures f in MissingAddress(CreateOrder, a) <==> !Given(AddressAt(a, f))
    ensures var m := MissingAddress(CreateOrder, a); forall i, j :: 0 <= i < j < |m| ==> m[i] != m[j]
  {
  }

  /** The saved address after a collect, field by field. */
  lemma TakenAddressAt(key: NameKey, notes: Notes, draft: Draft, heard: Heard, f: Field)
    requires draft.tool == CreateOrder && f in ADDRESS_FIELDS
    ensures var synced := AddressAt(SyncedByDraft(key, notes, draft, heard), f);
            AddressAt(TakenAddress(key, notes, draft, heard), f)
            == if !Given(synced) && f in heard.address && heard.address[f] != "" then Some(heard.address[f]) else synced
  {
    var a := SyncedByDraft(key, notes, draft, heard);
    MissingAddressAt(a, f);
    CollectAddressAt(a, MissingAddress(CreateOrder, a), heard.address, f);
  }

  /** The text arguments after a collect, field by field. */
  lemma TakenTextAt(key: NameKey, notes: Notes, draft: Draft, heard: Heard, f: Field)
    requires draft.tool == CreateOrder && f in ADDRESS_FIELDS
    ensures var e := Extracted(notes, draft, heard);
            TextAt(TakenArgs(key, notes, draft, heard), f)
            == if f == Street && Relocates(key, notes.address, draft.error, e) && TextAt(e, Street) == "" then ""
               else if f in e then TextAt(e, f) else TextAt(draft.args, f)
  {
  }

  // ---- Every argument, from the raw answer ----

  /** The raw answer has this value for the field, as the schema of the tool reads it. */
  predicate Tells(raw: RawArgs, tool: Tool, f: Field, v: Value) {
    && f in raw && raw[f].Some? && !raw[f].value.empty
    && match v
       case Whole(n) => Property(tool, f) == Some(IntegerType) && raw[f].value.whole == Some(n)
       case Decimal(r) => Property(tool, f) == Some(NumberType) && raw[f].value.decimal == Some(r)
       case Flag(b) => Property(tool, f) == Some(BooleanType) && raw[f].value.flag == Some(b)
       case Text(t) => Property(tool, f) == Some(OtherType) && raw[f].value.text == t
  }

  ghost predicate TellsNothing(raw: RawArgs, tool: Tool, f: Field) {
    forall v :: !Tells(raw, tool, f, v)
  }

  lemma CoercedAt(raw: RawArgs, tool: Tool, f: Field)
    ensures forall v :: Tells(raw, tool, f, v) <==> f in Coerce(raw, tool) && Coerce(raw, tool)[f] == v
  {
  }

  /** The arguments after a collect have the same value for the field as before, or both have none. */
  predicate SameAt(a: Args, b: Args, f: Field) {
    (f in a <==> f in b) && (f in a ==> a[f] == b[f])
  }

  /**
   * Every argument but an order's product, of every tool: the value that was heard, else the one the Draft had.  Only
   * the street of an order goes when the place was replaced and no street was heard.
   */
  lemma CollectedField(key: NameKey, notes: Notes, draft: Draft, heard: Heard, f: Field)
    requires !(draft.tool == CreateOrder && f == ProductId)
    ensures var args, address := TakenArgs(key, notes, draft, heard), TakenAddress(key, notes, draft, heard);
            var told := TextTold(heard.args, Street);
            if draft.tool == CreateOrder && f == Street && told == ""
               && StreetOutdated(key, notes.address, draft.error, address)
            then f !in args
            else
              && (forall v :: Tells(heard.args, draft.tool, f, v) ==> f in args && args[f] == v)
              && (TellsNothing(heard.args, draft.tool, f) ==> SameAt(args, draft.args, f))
  {
    var coerced := Coerce(heard.args, draft.tool);
    CoercedAt(heard.args, draft.tool, f);
    assert f in coerced ==> Tells(heard.args, draft.tool, f, coerced[f]);
    TakenArgAt(key, notes, draft, heard, f);
    if draft.tool == CreateOrder {
      MovesAreReplacements(key, notes, draft, heard);
      ToldIsExtracted(notes, draft, heard, Street);
    }
  }

  lemma TakenArgAt(key: NameKey, notes: Notes, draft: Draft, heard: Heard, f: Field)
    requires !(draft.tool == CreateOrder && f == ProductId)
    ensures var args, coerced := TakenArgs(key, notes, draft, heard), Coerce(heard.args, draft.tool);
            var e := Extracted(notes, draft, heard);
            if draft.tool == CreateOrder && f == Street && TextAt(e, Street) == ""
               && Relocates(key, notes.address, draft.error, e)
            then f !in args
            else SameAt(args, if f in coerced then coerced else draft.args, f)
  {
  }

  /** The text in the raw answer to an order, "" when there is none. */
  function TextTold(raw: RawArgs, f: Field): string {
    if f in raw && raw[f].Some? && !raw[f].value.empty then raw[f].value.text else ""
  }

  /** What the second extraction heard of the address. */
  function AddressHeard(heard: Heard, f: Field): Option<string> {
    if f in heard.address && heard.address[f] != "" then Some(heard.address[f]) else None
  }

  /**
   * The saved wilaya and commune after an order's collect: the name that was told when it is another place, else the
   * known one, else what the second extraction heard.
   */
  lemma SavedPlace(key: NameKey, notes: Notes, draft: Draft, heard: Heard, f: Field)
    requires draft.tool == CreateOrder && (f == Wilaya || f == Commune)
    ensures var known, told := AddressAt(notes.address, f), TextTold(heard.args, f);
            AddressAt(TakenAddress(key, notes, draft, heard), f) ==
            if told != "" && !(Given(known) && key(known.value) == key(told)) then Some(told)
            else if Given(known) then known
            else if AddressHeard(heard, f).Some? then AddressHeard(heard, f) else known
  {
    TakenAddressAt(key, notes, draft, heard, f);
    ToldIsExtracted(notes, draft, heard, f);
  }

  /** The saved street: the one that was told, else the known one unless the place was replaced, else what was heard. */
  lemma SavedStreet(key: NameKey, notes: Notes, draft: Draft, heard: Heard)
    requires draft.tool == CreateOrder
    ensures var address, told := TakenAddress(key, notes, draft, heard), TextTold(heard.args, Street);
            var kept := if StreetOutdated(key, notes.address, draft.error, address) then None else notes.address.street;
            address.street ==
            if told != "" then Some(told)
            else if Given(kept) then kept
            else if AddressHeard(heard, Street).Some? then AddressHeard(heard, Street) else kept
  {
    TakenAddressAt(key, notes, draft, heard, Street);
    ToldIsExtracted(notes, draft, heard, Street);
    MovesAreReplacements(key, notes, draft, heard);
  }

  lemma ToldIsExtracted(notes: Notes, draft: Draft, heard: Heard, f: Field)
    requires draft.tool == CreateOrder && f in ADDRESS_FIELDS
    ensures TextAt(Extracted(notes, draft, heard), f) == TextTold(heard.args, f)
  {
  }

  /** What a raw answer says about the product and the quantity of an order, and which product is selected. */
  datatype Told = Told(product: Option<string>, selected: Option<string>, quantity: Option<int>)

  function ToldAbout(notes: Notes, raw: RawArgs): Told {
    var selected := SelectedProduct(notes);
    Told(
      if ProductId in raw && raw[ProductId].Some? && !raw[ProductId].value.empty
         && KnownProduct(notes, raw[ProductId].value.text)
      then Some(raw[ProductId].value.text) else None,
      if selected.Some? then Some(selected.value.id) else None,
      if Quantity in raw && raw[Quantity].Some? && !raw[Quantity].value.empty then raw[Quantity].value.whole else None)
  }

  /** The heard product when it was shown or selected, else the one the Draft had, else the selected one. */
  function ProductAfter(told: Told, before: string): string {
    var product := if told.product.Some? then told.product.value else before;
    if product == "" && told.selected.Some? then told.selected.value else product
  }

  function QuantityAfter(told: Told, before: Option<int>): Option<int> {
    if told.quantity.Some? then told.quantity else before
  }

  function QuantityAt(args: Args): Option<int> {
    if Quantity in args && args[Quantity].Whole? then Some(args[Quantity].n) else None
  }

  /** The product and the quantity of an order after a collect. */
  lemma CollectedOrder(key: NameKey, notes: Notes, draft: Draft, heard: Heard)
    requires draft.tool == CreateOrder
    ensures var args, told := TakenArgs(key, notes, draft, heard), ToldAbout(notes, heard.args);
            && TextAt(args, ProductId) == ProductAfter(told, TextAt(draft.args, ProductId))
            && QuantityAt(args) == QuantityAfter(told, QuantityAt(draft.args))
  {
    CollectedProduct(key, notes, draft, heard);
    TakenArgAt(key, notes, draft, heard, Quantity);
    CoercedAt(heard.args, CreateOrder, Quantity);
  }

  lemma CollectedProduct(key: NameKey, notes: Notes, draft: Draft, heard: Heard)
    requires draft.tool == CreateOrder
    ensures TextAt(TakenArgs(key, notes, draft, heard), ProductId)
         == ProductAfter(ToldAbout(notes, heard.args), TextAt(draft.args, ProductId))
  {
    ExtractedProduct(notes, draft, heard);
  }

  lemma ExtractedProduct(notes: Notes, draft: Draft, heard: Heard)
    requires draft.tool == CreateOrder
    ensures var e, told := Extracted(notes, draft, heard), ToldAbout(notes, heard.args).product;
            (ProductId in e <==> told.Some?) && (told.Some? ==> e[ProductId] == Text(told.value))
  {
    CoercedAt(heard.args, CreateOrder, ProductId);
  }

  // ---- The same facts, observed from outside ----

  /** A known name was replaced by the name of another place. */
  predicate Replaced(key: NameKey, before: Option<string>, after: Option<string>) {
    Given(before) && !(Given(after) && key(before.value) == key(after.value))
  }

  /** The saved place was replaced by another one. */
  predicate PlaceReplaced(key: NameKey, before: Address, after: Address) {
    Replaced(key, before.wilaya, after.wilaya) || Replaced(key, before.commune, after.commune)
  }

  /** ... and this was more than a new commune for an order that had failed in the same wilaya. */
  predicate StreetOutdated(key: NameKey, before: Address, error: string, after: Address) {
    PlaceReplaced(key, before, after) && (error == "" || Replaced(key, before.wilaya, after.wilaya))
  }

  lemma MovesAreReplacements(key: NameKey, notes: Notes, draft: Draft, heard: Heard)
    ensures var e := Extracted(notes, draft, heard);
            var after := TakenAddress(key, notes, draft, heard);
            && (PlaceReplaced(key, notes.address, after)
                <==> draft.tool == CreateOrder && MovesAnywhere(key, notes.address, e))
            && (StreetOutdated(key, notes.address, draft.error, after)
                <==> draft.tool == CreateOrder && Relocates(key, notes.address, draft.error, e))
  {
    if draft.tool == CreateOrder {
      TakenAddressAt(key, notes, draft, heard, Wilaya);
      TakenAddressAt(key, notes, draft, heard, Commune);
    }
  }

  /** Where the streets known after a collect come from. */
  lemma StreetsAfterCollect(key: NameKey, notes: Notes, draft: Draft, heard: Heard)
    requires draft.tool == CreateOrder
    ensures var args, address := TakenArgs(key, notes, draft, heard), TakenAddress(key, notes, draft, heard);
            var now := StreetHeard(key, notes, draft, heard);
            var outdated := StreetOutdated(key, notes.address, draft.error, address);
            && (Given(address.street) ==>
                  address.street == now || (!outdated && address.street == notes.address.street))
            && (TextAt(args, Street) != "" ==>
                  || now == Some(TextAt(args, Street))
                  || (!outdated && TextAt(args, Street) == TextAt(draft.args, Street)))
  {
    TakenAddressAt(key, notes, draft, heard, Street);
    TakenTextAt(key, notes, draft, heard, Street);
    MissingAddressAt(SyncedByDraft(key, notes, draft, heard), Street);
    MovesAreReplacements(key, notes, draft, heard);
  }

  /** The arguments name the saved place: same wilaya and same commune, up to spelling. */
  predicate SamePlaceAt(key: NameKey, args: Args, a: Address, f: Field) {
    TextAt(args, f) != "" ==> Given(AddressAt(a, f)) && key(TextAt(args, f)) == key(AddressAt(a, f).value)
  }

  predicate SamePlace(key: NameKey, args: Args, a: Address) {
    SamePlaceAt(key, args, a, Wilaya) && SamePlaceAt(key, args, a, Commune)
  }

  lemma CollectKeepsPlace(key: NameKey, notes: Notes, draft: Draft, heard: Heard, f: Field)
    requires draft.tool == CreateOrder && SamePlaceAt(key, draft.args, notes.address, f)
    requires f == Wilaya || f == Commune
    ensures SamePlaceAt(key, TakenArgs(key, notes, draft, heard), TakenAddress(key, notes, draft, heard), f)
  {
    TakenAddressAt(key, notes, draft, heard, f);
    TakenTextAt(key, notes, draft, heard, f);
  }

  /** A collect that moves nowhere keeps every place that was already known. */
  lemma StayingKeepsOthersPlace(key: NameKey, notes: Notes, draft: Draft, heard: Heard, args: Args, f: Field)
    requires f == Wilaya || f == Commune
    requires SamePlaceAt(key, args, notes.address, f)
    requires !PlaceReplaced(key, notes.address, TakenAddress(key, notes, draft, heard))
    ensures SamePlaceAt(key, args, TakenAddress(key, notes, draft, heard), f)
  {
  }

  // ---- What start, reopen and close leave behind ----

  predicate HoldsDraftOf(f: Flow, tool: Tool) {
    f.draft.Some? && f.draft.value.tool == tool
  }

  lemma {:induction false} SameIds(a: seq<Flow>, b: seq<Flow>, id: string)
    requires |a| <= |b| && forall i :: 0 <= i < |a| ==> a[i].id == b[i].id
    ensures FlowAt(a, id).Some? ==> FlowAt(b, id) == FlowAt(a, id)
    ensures |a| == |b| ==> FlowAt(b, id) == FlowAt(a, id)
  {
  }

  /** Putting a Draft into a flow does not change which flow is active. */
  lemma FindAfterPut(notes: Notes, resolved: Option<string>, at: nat, draft: Option<Draft>, now: int, address: Address)
    requires Find(notes, resolved) == Some(at)
    ensures var after := PutDraft(notes, at, draft, now).(address := address);
            ActiveFlow(after, resolved) == Some(at) && Find(after, resolved) == if draft.Some? then Some(at) else None
  {
    var after := PutDraft(notes, at, draft, now);
    var id := if Given(resolved) then resolved else notes.active;
    SameIds(notes.flows, after.flows, id.value);
  }

  lemma ReopenedCollects(notes: Notes, resolved: Option<string>, error: string, now: int)
    ensures var after := Reopened(notes, resolved, error, now);
            && Find(after, resolved) == Find(notes, resolved)
            && (Find(notes, resolved).Some? ==> StateOf(after, resolved) == Collecting)
  {
    var at := Find(notes, resolved);
    if at.Some? {
      var draft := notes.flows[at.value].draft.value.(ready := false, error := error);
      FindAfterPut(notes, resolved, at.value, Some(draft), now, notes.address);
    }
  }

  lemma ClosedIsGone(notes: Notes, resolved: Option<string>, now: int)
    ensures var after := Closed(notes, resolved, now);
            StateOf(after, resolved) == NoDraft && ActiveFlow(after, resolved) == ActiveFlow(notes, resolved)
  {
    var at := Find(notes, resolved);
    if at.Some? {
      FindAfterPut(notes, resolved, at.value, None, now, notes.address);
    }
  }

  /** A failed order is not ready again before something new comes in: saying nothing new keeps the error pending. */
  lemma ReopenedNeedsNews(key: NameKey, notes: Notes, resolved: Option<string>, error: string, heard: Heard, now: int)
    requires Find(notes, resolved).Some? && error != ""
    ensures var after := Reopened(notes, resolved, error, now);
            var draft := after.flows[Find(notes, resolved).value].draft.value;
            var intake := TakeIn(key, after, draft, heard);
            intake.draft.ready ==> intake.draft.args != draft.args || intake.address != after.address
  {
  }

  // ---- The operations in place ----

  class Book {
    var address: Address
    var flows: seq<Flow>
    var active: Option<string>

    ghost function Value(): Notes
      reads this
    {
      Notes(address, flows, active)
    }

    constructor (notes: Notes)
      ensures Value() == notes
    {
      address, flows, active := notes.address, notes.flows, notes.active;
    }

    method FindDraft(resolved: Option<string>) returns (at: Option<nat>)
      ensures at == Find(Value(), resolved)
    {
      at := Find(Notes(address, flows, active), resolved);
    }

    /** start: the flow then has a Draft of this tool, the one it had or else an empty one that collects. */
    method Start(at: nat, tool: Option<Tool>)
      requires at < |flows|
      modifies this`flows
      ensures flows == old(flows)[at := Started(old(flows)[at], tool)]
      ensures tool.Some? ==> flows[at].draft.Some? && flows[at].draft.value.tool == tool.value
      ensures tool.None? || HoldsDraftOf(old(flows)[at], tool.value) ==> flows == old(flows)
      ensures tool.Some? && !HoldsDraftOf(old(flows)[at], tool.value) ==>
                !flows[at].draft.value.ready && flows[at].draft.value.args == map[] && flows[at].draft.value.error == ""
    {
      var draft := flows[at].draft;
      if tool.Some? && (draft.None? || draft.value.tool != tool.value) {
        flows := flows[at := flows[at].(draft := Some(NewDraft(tool.value)))];
      }
    }

    /** The loop of coerce_args over the items of the dictionary. */
    method CoerceArgs(raw: RawArgs, tool: Tool) returns (out: Args)
      ensures out == Coerce(raw, tool)
    {
      out := map[];
      var todo := raw.Keys;
      while todo != {}
        invariant todo <= raw.Keys
        invariant out.Keys == Coerce(raw, tool).Keys - todo
        invariant forall f :: f in out ==> out[f] == Coerce(raw, tool)[f]
        decreases todo
      {
        var f :| f in todo;
        todo := todo - {f};
        var v := Cast(raw[f], Property(tool, f));
        if v.Some? {
          out := out[f := v.value];
        }
      }
    }

    /** _sync_address: the two place names first, then the street. */
    method SyncAddress(key: NameKey, error: string, extracted: Args, args: Args) returns (kept: Args)
      modifies this`address
      ensures address == SyncedAddress(key, old(address), error, extracted)
      ensures kept == SyncedArgs(key, old(address), error, extracted, args)
    {
      kept := args;
      var movedWilaya, movedCommune := false, false;
      var name := TextAt(extracted, Wilaya);
      if name != "" && !(Given(address.wilaya) && key(address.wilaya.value) == key(name)) {
        movedWilaya := Given(address.wilaya);
        address := address.(wilaya := Some(name));
      }
      name := TextAt(extracted, Commune);
      if name != "" && !(Given(address.commune) && key(address.commune.value) == key(name)) {
        movedCommune := Given(address.commune);
        address := address.(commune := Some(name));
      }
      var fixesFailedOrder := error != "" && movedCommune && !movedWilaya;
      var street := TextAt(extracted, Street);
      if (movedWilaya || movedCommune) && !fixesFailedOrder {
        address := address.(street := None);
        if street == "" {
          kept := kept - {Street};
        }
      }
      if street != "" {
        address := address.(street := Some(street));
      }
    }

    /** The loop of _collect_address. */
    method FillAddress(missing: seq<Field>, heard: map<Field, string>)
      modifies this`address
      ensures address == CollectAddress(old(address), missing, heard)
    {
      var i := 0;
      while i < |missing|
        invariant 0 <= i <= |missing|
        invariant CollectAddress(address, missing[i..], heard) == CollectAddress(old(address), missing, heard)
      {
        var f := missing[i];
        assert missing[i..][1..] == missing[i + 1..];
        if f in heard && heard[f] != "" {
          address := SetAddress(address, f, heard[f]);
        }
        i := i + 1;
      }
    }

    /** The arguments and the address of one collect. */
    method Gather(key: NameKey, draft: Draft, heard: Heard) returns (args: Args)
      modifies this`address
      ensures args == TakenArgs(key, old(Value()), draft, heard)
      ensures address == TakenAddress(key, old(Value()), draft, heard)
    {
      var notes := Notes(address, flows, active);
      var extracted := CoerceArgs(heard.args, draft.tool);
      extracted := DropUnknownProduct(notes, draft.tool, extracted);
      args := FillSelectedProduct(notes, draft.tool, draft.args + extracted);
      if draft.tool == CreateOrder {
        args := SyncAddress(key, draft.error, extracted, args);
      }
      var missing := MissingAddress(draft.tool, address);
      if missing != [] {
        FillAddress(missing, heard.address);
      }
    }

    /** collect */
    method Collect(key: NameKey, resolved: Option<string>, heard: Heard, now: int) returns (did: bool)
      modifies this
      ensures did == ToCollect(old(Value()), resolved).Some?
      ensures !did ==> Value() == old(Value())
      ensures did ==> Value() == Collected(key, old(Value()), ToCollect(old(Value()), resolved).value, heard, now)
    {
      var at := FindDraft(resolved);
      if at.None? || flows[at.value].draft.value.ready || flows[at.value].draft.value.tool.UnknownTool? {
        return false;
      }
      var i := at.value;
      var draft := flows[i].draft.value;
      var before := address;
      var args := Gather(key, draft, heard);
      var missing := MissingFields(args, draft.tool) + MissingAddress(draft.tool, address);
      if args != draft.args || address != before {
        draft := draft.(args := args, attempts := 0, error := "");
      } else {
        draft := draft.(attempts := draft.attempts + 1);
      }
      draft := draft.(missing := missing);
      if missing == [] && draft.error == "" {
        draft := draft.(ready := true);
      }
      flows := flows[i := flows[i].(draft := Some(draft), updatedAt := now)];
      return true;
    }

    /** reopen: the Draft collects again, with what was collected and with the error pending. */
    method Reopen(resolved: Option<string>, error: string, now: int)
      modifies this`flows
      ensures Value() == Reopened(old(Value()), resolved, error, now)
      ensures Find(Value(), resolved) == old(Find(Value(), resolved))
      ensures old(Find(Value(), resolved)).Some? ==>
                var at := old(Find(Value(), resolved)).value;
                && StateOf(Value(), resolved) == Collecting && flows[at].draft.value.error == error
                && flows[at].draft.value.args == old(flows)[at].draft.value.args
    {
      ReopenedCollects(Value(), resolved, error, now);
      var at := FindDraft(resolved);
      if at.Some? {
        var flow := flows[at.value];
        var draft := flow.draft.value.(ready := false, error := error);
        flows := flows[at.value := flow.(draft := Some(draft), updatedAt := now)];
      }
    }

    /** close: the flow then holds no Draft, and is still found. */
    method Close(resolved: Option<string>, now: int)
      modifies this`flows
      ensures Value() == Closed(old(Value()), resolved, now)
      ensures StateOf(Value(), resolved) == NoDraft
      ensures ActiveFlow(Value(), resolved) == old(ActiveFlow(Value(), resolved))
    {
      ClosedIsGone(Value(), resolved, now);
      var at := FindDraft(resolved);
      if at.Some? {
        flows := flows[at.value := flows[at.value].(draft := None, updatedAt := now)];
      }
    }

    /** give_up: true when the Draft was stalled too often and is now gone. */
    method GiveUp(resolved: Option<string>, now: int) returns (gone: bool)
      modifies this`flows
      ensures gone == IsStuck(old(Value()), resolved)
      ensures Value() == if gone then Closed(old(Value()), resolved, now) else old(Value())
    {
      var at := FindDraft(resolved);
      if at.None? || flows[at.value].draft.value.ready || flows[at.value].draft.value.attempts < MAX_STALLED_TURNS {
        return false;
      }
      Close(resolved, now);
      return true;
    }

    /** clear_selected_product */
    method ClearSelectedProduct()
      modifies this`flows
      ensures Value() == Cleared(old(Value()))
      ensures forall i :: 0 <= i < |flows| ==> !HasSelected(flows[i])
    {
      var i := 0;
      while i < |flows|
        invariant 0 <= i <= |flows| == |old(flows)|
        invariant forall j :: 0 <= j < i ==> flows[j] == ClearedFlow(old(flows)[j])
        invariant forall j :: i <= j < |flows| ==> flows[j] == old(flows)[j]
      {
        if flows[i].discovery.Some? {
          flows := flows[i := flows[i].(discovery := Some(flows[i].discovery.value.(selected := None)))];
        }
        i := i + 1;
      }
    }

    /** shown_products: at most ten products, none twice, the last shown last. */
    method FindShownProducts() returns (latest: seq<Product>)
      ensures latest == ShownProducts(Value())
      ensures DistinctIds(latest) && |latest| <= MAX_SHOWN_PRODUCTS
    {
      var shown: seq<Product> := [];
      var sorted := SortedByTime(flows);
      for i := 0 to |sorted|
        invariant ShowFlows(shown, sorted[i..]) == ShowFlows([], sorted)
      {
        assert sorted[i..][1..] == sorted[i + 1..];
        if sorted[i].discovery.Some? {
          var results := sorted[i].discovery.value.results;
          ghost var start := shown;
          for k := 0 to |results|
            invariant ShowAll(shown, results[k..]) == ShowAll(start, results)
          {
            assert results[k..][1..] == results[k + 1..];
            shown := Without(shown, results[k].id) + [results[k]];
          }
        }
      }
      latest := if |shown| <= MAX_SHOWN_PRODUCTS then shown else shown[|shown| - MAX_SHOWN_PRODUCTS..];
      ShownAreDistinct(Value());
    }
  }
}
