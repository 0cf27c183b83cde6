/** The checklist variant of the service form (app/resources/main_v1.py):
    reading the post, building the `form_data` dictionary and the database
    row, drawing the report on a reportlab canvas, and e-mailing it to the
    customer and then to the company. */
module ServiceForm {
  import opened Values
  import C = Calendar
  import opened Strptime
  import opened Display
  import opened Pagination
  import opened Pipeline

  /** The twenty form fields of table `service_forms`, in column order. */
  datatype Field =
    | TechnicianName | CustomerName | CustomerEmail | Date | Time | IpAddress
    | MachineName | Model | Dispenser | Distribution | Titration | WashTemp
    | RinseTankTemp | FinalRinsePsi | WaterHardness | Products | StockCheck
    | Comments | ServiceRepSignature | CustomerSignature

  /** The forty-five checkboxes, in declared order. */
  datatype Box =
    | FillValves | Pumps | WashTankArms | RinseTankArms | FinalRinse
    | Overflow | Drains | Racking | Curtains | Odor | Feel | StainRemoval
    | WaterLevels | WettabilityPoor | WettabilityGood | DrainValves
    | SecondLook | Coffee | Tea | HotChocolate | Juice | WarmerElement
    | SwitchesLights | SprayheadTubing | Brewbasket | TimerValve
    | RelayWiring | Thermostat | MicrometFeeder | WaterLevel | TimedCycle
    | Temperature | UmBypass | UmGlass | UmPump | UmAgitator | WaterValve
    | DripTray | Switch | TeaHead | Motor | Valve | Timer | HopperAuger | Other

  /** The keys the handler writes: the columns of table `service_forms`
      (`id`, the fields, the checkboxes, `created_at`) and the `checkboxes`
      key of the nested dictionary in `form_data`. Each key stands for the
      string literal `Name` returns; those literals are pairwise distinct. */
  datatype Key = Id | FieldKey(field: Field) | Checkboxes | BoxKey(box: Box) | CreatedAt

  /** The column name, as written in the source. */
  function Name(k: Key): string {
    match k
    case Id => "id"
    case FieldKey(f) => FieldName(f)
    case Checkboxes => "checkboxes"
    case BoxKey(b) => BoxName(b)
    case CreatedAt => "created_at"
  }

  function FieldName(f: Field): string {
    match f
    case TechnicianName => "technician_name"
    case CustomerName => "customer_name"
    case CustomerEmail => "customer_email"
    case Date => "date"
    case Time => "time"
    case IpAddress => "ip_address"
    case MachineName => "machine_name"
    case Model => "model"
    case Dispenser => "dispenser"
    case Distribution => "distribution"
    case Titration => "titration"
    case WashTemp => "wash_temp"
    case RinseTankTemp => "rinse_tank_temp"
    case FinalRinsePsi => "final_rinse_psi"
    case WaterHardness => "water_hardness"
    case Products => "products"
    case StockCheck => "stock_check"
    case Comments => "comments"
    case ServiceRepSignature => "service_rep_signature"
    case CustomerSignature => "customer_signature"
  }

  function BoxName(b: Box): string {
    match b
    case FillValves => "fill_valves"
    case Pumps => "pumps"
    case WashTankArms => "wash_tank_arms"
    case RinseTankArms => "rinse_tank_arms"
    case FinalRinse => "final_rinse"
    case Overflow => "overflow"
    case Drains => "drains"
    case Racking => "racking"
    case Curtains => "curtains"
    case Odor => "odor"
    case Feel => "feel"
    case StainRemoval => "stain_removal"
    case WaterLevels => "water_levels"
    case WettabilityPoor => "wettability_poor"
    case WettabilityGood => "wettability_good"
    case DrainValves => "drain_valves"
    case SecondLook => "second_look"
    case Coffee => "coffee"
    case Tea => "tea"
    case HotChocolate => "hot_chocolate"
    case Juice => "juice"
    case WarmerElement => "warmer_element"
    case SwitchesLights => "switches_lights"
    case SprayheadTubing => "sprayhead_tubing"
    case Brewbasket => "brewbasket"
    case TimerValve => "timer_valve"
    case RelayWiring => "relay_wiring"
    case Thermostat => "thermostat"
    case MicrometFeeder => "micromet_feeder"
    case WaterLevel => "water_level"
    case TimedCycle => "timed_cycle"
    case Temperature => "temperature"
    case UmBypass => "um_bypass"
    case UmGlass => "um_glass"
    case UmPump => "um_pump"
    case UmAgitator => "um_agitator"
    case WaterValve => "water_valve"
    case DripTray => "drip_tray"
    case Switch => "switch"
    case TeaHead => "tea_head"
    case Motor => "motor"
    case Valve => "valve"
    case Timer => "timer"
    case HopperAuger => "hopper_auger"
    case Other => "other"
  }

  /** Position of a checkbox in declared order. */
  function Position(b: Box): (n: nat)
    ensures n < BoxCount
  {
    match b
    case FillValves => 0
    case Pumps => 1
    case WashTankArms => 2
    case RinseTankArms => 3
    case FinalRinse => 4
    case Overflow => 5
    case Drains => 6
    case Racking => 7
    case Curtains => 8
    case Odor => 9
    case Feel => 10
    case StainRemoval => 11
    case WaterLevels => 12
    case WettabilityPoor => 13
    case WettabilityGood => 14
    case DrainValves => 15
    case SecondLook => 16
    case Coffee => 17
    case Tea => 18
    case HotChocolate => 19
    case Juice => 20
    case WarmerElement => 21
    case SwitchesLights => 22
    case SprayheadTubing => 23
    case Brewbasket => 24
    case TimerValve => 25
    case RelayWiring => 26
    case Thermostat => 27
    case MicrometFeeder => 28
    case WaterLevel => 29
    case TimedCycle => 30
    case Temperature => 31
    case UmBypass => 32
    case UmGlass => 33
    case UmPump => 34
    case UmAgitator => 35
    case WaterValve => 36
    case DripTray => 37
    case Switch => 38
    case TeaHead => 39
    case Motor => 40
    case Valve => 41
    case Timer => 42
    case HopperAuger => 43
    case Other => 44
  }

  const BoxCount := 45

  /** The checkbox at a position; the inverse of `Position`. */
  function BoxAt(n: nat): Box {
    match n
    case 0 => FillValves
    case 1 => Pumps
    case 2 => WashTankArms
    case 3 => RinseTankArms
    case 4 => FinalRinse
    case 5 => Overflow
    case 6 => Drains
    case 7 => Racking
    case 8 => Curtains
    case 9 => Odor
    case 10 => Feel
    case 11 => StainRemoval
    case 12 => WaterLevels
    case 13 => WettabilityPoor
    case 14 => WettabilityGood
    case 15 => DrainValves
    case 16 => SecondLook
    case 17 => Coffee
    case 18 => Tea
    case 19 => HotChocolate
    case 20 => Juice
    case 21 => WarmerElement
    case 22 => SwitchesLights
    case 23 => SprayheadTubing
    case 24 => Brewbasket
    case 25 => TimerValve
    case 26 => RelayWiring
    case 27 => Thermostat
    case 28 => MicrometFeeder
    case 29 => WaterLevel
    case 30 => TimedCycle
    case 31 => Temperature
    case 32 => UmBypass
    case 33 => UmGlass
    case 34 => UmPump
    case 35 => UmAgitator
    case 36 => WaterValve
    case 37 => DripTray
    case 38 => Switch
    case 39 => TeaHead
    case 40 => Motor
    case 41 => Valve
    case 42 => Timer
    case 43 => HopperAuger
    case _ => Other
  }

  lemma PositionBoxAt(n: nat)
    requires n < BoxCount
    ensures Position(BoxAt(n)) == n
  {
  }

  lemma BoxAtPosition(b: Box)
    ensures BoxAt(Position(b)) == b
  {
    match b
    case FillValves =>
    case Pumps =>
    case WashTankArms =>
    case RinseTankArms =>
    case FinalRinse =>
    case Overflow =>
    case Drains =>
    case Racking =>
    case Curtains =>
    case Odor =>
    case Feel =>
    case StainRemoval =>
    case WaterLevels =>
    case WettabilityPoor =>
    case WettabilityGood =>
    case DrainValves =>
    case SecondLook =>
    case Coffee =>
    case Tea =>
    case HotChocolate =>
    case Juice =>
    case WarmerElement =>
    case SwitchesLights =>
    case SprayheadTubing =>
    case Brewbasket =>
    case TimerValve =>
    case RelayWiring =>
    case Thermostat =>
    case MicrometFeeder =>
    case WaterLevel =>
    case TimedCycle =>
    case Temperature =>
    case UmBypass =>
    case UmGlass =>
    case UmPump =>
    case UmAgitator =>
    case WaterValve =>
    case DripTray =>
    case Switch =>
    case TeaHead =>
    case Motor =>
    case Valve =>
    case Timer =>
    case HopperAuger =>
    case Other =>
  }

  /** The checkboxes in declared order: the order of the `checkboxes`
      dictionary and of the checklist section of the report. */
  const ChecklistOrder: seq<Box> := seq(BoxCount, i requires 0 <= i < BoxCount => BoxAt(i))

  /** Every checkbox appears in the declared order, at its position. */
  lemma ChecklistPosition(b: Box)
    ensures ChecklistOrder[Position(b)] == b
  {
    BoxAtPosition(b);
  }

  /** The post as `submit_form` receives it. Required fields are strings,
      possibly empty; optional ones may be `None`; the boolean checkboxes are
      given as the set of ticked columns (the others default to `False`). */
  datatype ServiceFormPost = ServiceFormPost(
    technicianName: string,
    customerName: string,
    customerEmail: string,
    date: string,
    time: Option<string>,
    machineName: Option<string>,
    model: Option<string>,
    dispenser: Option<string>,
    distribution: Option<string>,
    titration: Option<string>,
    washTemp: Option<string>,
    rinseTankTemp: Option<string>,
    finalRinsePsi: Option<string>,
    waterHardness: Option<string>,
    products: Option<string>,
    stockCheck: Option<string>,
    comments: Option<string>,
    serviceRepSignature: string,
    customerSignature: string,
    ticked: set<Box>)

  /** The keyword arguments of `generate_pdf`: the post with its date and
      time parsed, the client address, and the checkbox dictionary. */
  datatype ServiceRecord = ServiceRecord(
    post: ServiceFormPost,
    date: Option<C.Date>,
    time: Option<C.Time>,
    ipAddress: string,
    checkboxes: seq<CheckItem<Key>>)

  /** Parsed values are real dates and times, as Python's objects are. */
  predicate ValidRecord(rec: ServiceRecord) {
    && (rec.date.Some? ==> C.ValidDate(rec.date.value))
    && (rec.time.Some? ==> C.ValidTime(rec.time.value))
    && rec.checkboxes == CheckboxItems(rec.post.ticked)
  }

  /** The optional time: absent or empty gives `None` without parsing; a
      string `%H:%M` rejects gives `None` too. */
  function ParseTimeField(o: Option<string>): Option<C.Time> {
    if Truthy(o) then ParseTime(o.value) else None
  }

  /** The `checkboxes` dictionary built from the ticked set. */
  function CheckboxItems(ticked: set<Box>): seq<CheckItem<Key>> {
    seq(BoxCount, i requires 0 <= i < BoxCount => CheckItem(BoxKey(ChecklistOrder[i]), ChecklistOrder[i] in ticked))
  }

  /** The start of `submit_form`: parse the date (any failure gives `None`),
      parse the optional time, record the client address. */
  function ReadForm(post: ServiceFormPost, ip: string): (rec: ServiceRecord)
    ensures ValidRecord(rec)
    ensures rec.post == post && rec.ipAddress == ip
  {
    ServiceRecord(post, ParseDate(post.date), ParseTimeField(post.time), ip, CheckboxItems(post.ticked))
  }

  /** The `form_data` dictionary. */
  function FormData(rec: ServiceRecord): map<Key, Value<Key>> {
    var p := rec.post;
    map[
      FieldKey(TechnicianName) := Text(p.technicianName),
      FieldKey(CustomerName) := Text(p.customerName),
      FieldKey(CustomerEmail) := Text(p.customerEmail),
      FieldKey(Date) := OptDate(rec.date),
      FieldKey(Time) := OptTime(rec.time),
      FieldKey(IpAddress) := Text(rec.ipAddress),
      FieldKey(MachineName) := OptText(p.machineName),
      FieldKey(Model) := OptText(p.model),
      FieldKey(Dispenser) := OptText(p.dispenser),
      FieldKey(Distribution) := OptText(p.distribution),
      FieldKey(Titration) := OptText(p.titration),
      FieldKey(WashTemp) := OptText(p.washTemp),
      FieldKey(RinseTankTemp) := OptText(p.rinseTankTemp),
      FieldKey(FinalRinsePsi) := OptText(p.finalRinsePsi),
      FieldKey(WaterHardness) := OptText(p.waterHardness),
      FieldKey(Products) := OptText(p.products),
      FieldKey(StockCheck) := OptText(p.stockCheck),
      FieldKey(Comments) := OptText(p.comments),
      FieldKey(ServiceRepSignature) := Text(p.serviceRepSignature),
      FieldKey(CustomerSignature) := Text(p.customerSignature),
      Checkboxes := Checks(rec.checkboxes)
    ]
  }

  function KeysOf<K>(items: seq<CheckItem<K>>): set<K> {
    set i | 0 <= i < |items| :: items[i].key
  }

  /** Entries that share a key agree on its value (true when keys are
      distinct). */
  predicate Consistent<K(==)>(items: seq<CheckItem<K>>) {
    forall i, j :: 0 <= i < |items| && 0 <= j < |items| && items[i].key == items[j].key ==> items[i].checked == items[j].checked
  }

  /** `dict.update` with the checkbox entries, applied in order. */
  function UpdateWith<K(==)>(m: map<K, Value<K>>, items: seq<CheckItem<K>>): (r: map<K, Value<K>>)
    decreases |items|
    ensures r.Keys == m.Keys + KeysOf(items)
    ensures forall k :: k in m && k !in KeysOf(items) ==> r[k] == m[k]
    ensures Consistent(items) ==> forall i :: 0 <= i < |items| ==> r[items[i].key] == Flag(items[i].checked)
  {
    if items == [] then m
    else
      assert KeysOf(items) == {items[0].key} + KeysOf(items[1..]) by {
        forall k | k in KeysOf(items) ensures k in {items[0].key} + KeysOf(items[1..]) {
          var i :| 0 <= i < |items| && items[i].key == k;
          if i > 0 {
            assert items[1..][i - 1].key == k;
          }
        }
      }
      UpdateWith(m[items[0].key := Flag(items[0].checked)], items[1..])
  }

  /** Lines 351-353: copy `form`, update it with the nested checkbox
      dictionary, then delete the nested key. The row has every other key of
      the form and every checkbox key; a checkbox key maps to its flag; any
      other field keeps its value unless a checkbox key collides with it. */
  function FlattenRow<K(==)>(form: map<K, Value<K>>, nested: K): (row: map<K, Value<K>>)
    requires nested in form && form[nested].Checks?
    ensures nested !in row
    ensures row.Keys == (form.Keys + KeysOf(form[nested].items)) - {nested}
    ensures forall k :: k in form && k != nested && k !in KeysOf(form[nested].items) ==> row[k] == form[k]
    ensures Consistent(form[nested].items) ==>
      forall i :: 0 <= i < |form[nested].items| && form[nested].items[i].key != nested ==>
        row[form[nested].items[i].key] == Flag(form[nested].items[i].checked)
  {
    UpdateWith(form, form[nested].items) - {nested}
  }

  /** The keys of the checkbox dictionary are exactly the checkbox columns,
      and each entry says whether its box was ticked. */
  lemma CheckboxKeys(ticked: set<Box>)
    ensures KeysOf(CheckboxItems(ticked)) == set b | true :: BoxKey(b)
    ensures forall i :: 0 <= i < |CheckboxItems(ticked)| ==>
      CheckboxItems(ticked)[i].checked == (CheckboxItems(ticked)[i].key.box in ticked)
  {
    var items := CheckboxItems(ticked);
    forall b ensures BoxKey(b) in KeysOf(items) {
      ChecklistPosition(b);
      assert items[Position(b)].key == BoxKey(b);
    }
  }

  /** `form_data` holds every field and the nested `checkboxes` entry. */
  lemma FormDataKeys(rec: ServiceRecord)
    ensures FormData(rec).Keys == (set f | true :: FieldKey(f)) + {Checkboxes}
  {
    forall f ensures FieldKey(f) in FormData(rec) {
      match f
      case TechnicianName =>
      case CustomerName =>
      case CustomerEmail =>
      case Date =>
      case Time =>
      case IpAddress =>
      case MachineName =>
      case Model =>
      case Dispenser =>
      case Distribution =>
      case Titration =>
      case WashTemp =>
      case RinseTankTemp =>
      case FinalRinsePsi =>
      case WaterHardness =>
      case Products =>
      case StockCheck =>
      case Comments =>
      case ServiceRepSignature =>
      case CustomerSignature =>
    }
  }

  /** The row inserted into `service_forms`. It fills every column of the
      table except the two the table assigns (`id`, `created_at`), and has
      no `checkboxes` key. */
  function InsertRow(rec: ServiceRecord): (row: map<Key, Value<Key>>)
    requires ValidRecord(rec)
    ensures forall k :: k in row <==> k.FieldKey? || k.BoxKey?
  {
    CheckboxKeys(rec.post.ticked);
    FormDataKeys(rec);
    FlattenRow(FormData(rec), Checkboxes)
  }

  /** Each checkbox column of the row holds whether its box was ticked. */
  lemma InsertRowCheckboxes(post: ServiceFormPost, ip: string)
    ensures var row := InsertRow(ReadForm(post, ip));
      forall b :: BoxKey(b) in row && row[BoxKey(b)] == Flag(b in post.ticked)
  {
    var rec := ReadForm(post, ip);
    var items := rec.checkboxes;
    CheckboxKeys(post.ticked);
    assert Consistent(items);
    forall b ensures InsertRow(rec)[BoxKey(b)] == Flag(b in post.ticked) {
      ChecklistPosition(b);
      assert items[Position(b)].key == BoxKey(b);
    }
  }

  /** Every field of `form_data` reaches the row unchanged: no checkbox
      name is also a field name, so the update overwrites nothing. */
  lemma InsertRowFields(post: ServiceFormPost, ip: string)
    ensures var rec := ReadForm(post, ip); var row := InsertRow(rec);
      forall f :: FieldKey(f) in row && row[FieldKey(f)] == FormData(rec)[FieldKey(f)]
  {
    var rec := ReadForm(post, ip);
    CheckboxKeys(post.ticked);
    FormDataKeys(rec);
  }

  /** Horizontal position of the letterhead text. */
  const HeaderX := 200
  /** The cursor after the letterhead. */
  const BodyTop := PageTop - 80

  /** The letterhead: the logo when its file exists, then four lines of
      company details around the top of the page. */
  function Letterhead(logo: bool): seq<Event> {
    (if logo then [DrawImage(LeftMargin, PageTop)] else [])
    + [ DrawText(HeaderX, PageTop + 30, "Graves Foods"),
        DrawText(HeaderX, PageTop + 15, "913 Big Horn Drive, Jefferson City, MO, 65109"),
        DrawText(HeaderX, PageTop, "Phone: (573) 893-3000 | gravesfoods.com"),
        DrawText(HeaderX, PageTop - 15, "Excellence Since 1947") ]
  }

  const LetterheadTexts: seq<string> := [
    "Graves Foods",
    "913 Big Horn Drive, Jefferson City, MO, 65109",
    "Phone: (573) 893-3000 | gravesfoods.com",
    "Excellence Since 1947"]

  function BasicInfo(rec: ServiceRecord): seq<string>
    requires ValidRecord(rec)
  {
    var p := rec.post;
    [ "Technician Name: " + p.technicianName,
      "Customer Name: " + p.customerName,
      "Customer Email: " + p.customerEmail,
      "Date: " + DateOrNA(rec.date),
      "Time: " + TimeOrNA(rec.time),
      "IP Address: " + rec.ipAddress,
      "Machine Name: " + OrNA(p.machineName),
      "Model: " + OrNA(p.model),
      "Dispenser: " + OrNA(p.dispenser),
      "Distribution: " + OrNA(p.distribution) ]
  }

  function LaundryInfo(rec: ServiceRecord): seq<string> {
    var p := rec.post;
    [ "Titration: " + OrNA(p.titration),
      "Wash Temp: " + OrNA(p.washTemp),
      "Rinse Tank Temp: " + OrNA(p.rinseTankTemp),
      "Final Rinse P.S.I.: " + OrNA(p.finalRinsePsi),
      "Water Hardness: " + OrNA(p.waterHardness) ]
  }

  function ChecklistSection(items: seq<CheckItem<Key>>): seq<string> {
    seq(|items|, i requires 0 <= i < |items| => ChecklistLine(Name(items[i].key), items[i].checked))
  }

  function AdditionalInfo(rec: ServiceRecord): seq<string> {
    var p := rec.post;
    [ "Products: " + OrNA(p.products),
      "Stock Check: " + OrNA(p.stockCheck),
      "Comments: " + OrNA(p.comments) ]
  }

  /** The signature block, each line with the spacing the source passes. */
  function SignatureBlock(rec: ServiceRecord): seq<Line>
    requires ValidRecord(rec)
  {
    var p := rec.post;
    [ Line("Signatures", WideSpacing),
      Line("Service Representative Signature:", LineSpacing),
      Line(OrNotProvided(p.serviceRepSignature), WideSpacing),
      Line("Customer Signature:", LineSpacing),
      Line(OrNotProvided(p.customerSignature), WideSpacing),
      Line("Technician Name: " + p.technicianName, LineSpacing),
      Line("Customer Name: " + p.customerName, LineSpacing),
      Line("Date: " + DateOrNA(rec.date), LineSpacing),
      Line("Time: " + TimeOrNA(rec.time), LineSpacing),
      Line("IP Address: " + rec.ipAddress, LineSpacing) ]
  }

  /** Texts at the default spacing, as the section loops draw them. */
  function Spaced(texts: seq<string>): seq<Line> {
    seq(|texts|, i requires 0 <= i < |texts| => Line(texts[i], LineSpacing))
  }

  /** Everything drawn below the letterhead, in order, with the spacing the
      page check after each line receives. */
  function BodyLines(rec: ServiceRecord): seq<Line>
    requires ValidRecord(rec)
  {
    [Line("Basic Information", WideSpacing)] + Spaced(BasicInfo(rec))
    + [Line("Ware Wash Laundry Results", LineSpacing)] + Spaced(LaundryInfo(rec))
    + [Line("Service Checklist:", LineSpacing)] + Spaced(ChecklistSection(rec.checkboxes))
    + [Line("Additional Information:", LineSpacing)] + Spaced(AdditionalInfo(rec))
    + SignatureBlock(rec)
  }

  /** `generate_pdf`: the canvas calls for the whole report, the letterhead
      and then one draw per body line, each followed by at most one page
      break. */
  function RenderReport(rec: ServiceRecord, logo: bool): (ev: seq<Event>)
    requires ValidRecord(rec)
    ensures |BodyLines(rec)| + 4 <= |ev| <= 2 * |BodyLines(rec)| + 5
  {
    Letterhead(logo) + Layout(BodyTop, BodyLines(rec))
  }

  /** The texts of the signature block, in order. */
  function SignatureTexts(rec: ServiceRecord): seq<string>
    requires ValidRecord(rec)
  {
    var p := rec.post;
    [ "Signatures", "Service Representative Signature:", OrNotProvided(p.serviceRepSignature),
      "Customer Signature:", OrNotProvided(p.customerSignature),
      "Technician Name: " + p.technicianName, "Customer Name: " + p.customerName,
      "Date: " + DateOrNA(rec.date), "Time: " + TimeOrNA(rec.time), "IP Address: " + rec.ipAddress ]
  }

  lemma SignatureBlockTexts(rec: ServiceRecord)
    requires ValidRecord(rec)
    ensures LineTexts(SignatureBlock(rec)) == SignatureTexts(rec)
  {
  }

  /** The report's sections in order, each heading followed by its lines:
      basic information, laundry results, the checklist, additional
      information and the signature block. */
  function SectionTexts(rec: ServiceRecord): seq<string>
    requires ValidRecord(rec)
  {
    ["Basic Information"] + BasicInfo(rec)
    + ["Ware Wash Laundry Results"] + LaundryInfo(rec)
    + ["Service Checklist:"] + ChecklistSection(rec.checkboxes)
    + ["Additional Information:"] + AdditionalInfo(rec)
    + SignatureTexts(rec)
  }

  /** However the lines fall across pages, the report draws the letterhead
      and then every section completely, in order, each line once: basic
      information, laundry results, the checklist, additional information
      and the signature block. */
  lemma ReportDrawsEverySection(rec: ServiceRecord, logo: bool)
    requires ValidRecord(rec)
    ensures Texts(RenderReport(rec, logo)) == LetterheadTexts + SectionTexts(rec)
  {
    TextsAppend(Letterhead(logo), Layout(BodyTop, BodyLines(rec)));
    LetterheadDrawsTexts(logo);
    LayoutDrawsEachLineOnce(BodyTop, BodyLines(rec));
    BodyTexts(rec);
  }

  /** The letterhead draws its four lines of text, with or without the logo. */
  lemma LetterheadDrawsTexts(logo: bool)
    ensures Texts(Letterhead(logo)) == LetterheadTexts
  {
    var h := Letterhead(logo);
    var draws := h[|h| - 4..];
    TextsOfDraws(draws);
    if logo {
      assert h == [h[0]] + draws;
      TextsAppend([h[0]], draws);
    } else {
      assert h == draws;
    }
  }

  lemma SpacedTexts(texts: seq<string>)
    ensures LineTexts(Spaced(texts)) == texts
  {
  }

  /** The texts of the body lines, section by section. */
  lemma BodyTexts(rec: ServiceRecord)
    requires ValidRecord(rec)
    ensures LineTexts(BodyLines(rec)) == SectionTexts(rec)
  {
    var a := [Line("Basic Information", WideSpacing)];
    var b := Spaced(BasicInfo(rec));
    var c := [Line("Ware Wash Laundry Results", LineSpacing)];
    var d := Spaced(LaundryInfo(rec));
    var e := [Line("Service Checklist:", LineSpacing)];
    var f := Spaced(ChecklistSection(rec.checkboxes));
    var g := [Line("Additional Information:", LineSpacing)];
    var i := Spaced(AdditionalInfo(rec));
    var j := SignatureBlock(rec);
    SpacedTexts(BasicInfo(rec));
    SpacedTexts(LaundryInfo(rec));
    SpacedTexts(ChecklistSection(rec.checkboxes));
    SpacedTexts(AdditionalInfo(rec));
    SignatureBlockTexts(rec);
    LineTextsAppend(a, b);
    LineTextsAppend(a + b, c);
    LineTextsAppend(a + b + c, d);
    LineTextsAppend(a + b + c + d, e);
    LineTextsAppend(a + b + c + d + e, f);
    LineTextsAppend(a + b + c + d + e + f, g);
    LineTextsAppend(a + b + c + d + e + f + g, i);
    LineTextsAppend(a + b + c + d + e + f + g + i, j);
  }

  /** Every body line is followed by a spacing of 20 or 30. */
  lemma BodySpacings(rec: ServiceRecord)
    requires ValidRecord(rec)
    ensures ValidSpacings(BodyLines(rec))
  {
  }

  /** The letterhead: the logo at the left margin of the top line when its
      file exists, then the four text lines at x = 200 between heights 735
      and 780; it never starts a page. */
  lemma LetterheadShape(logo: bool)
    ensures var h := Letterhead(logo);
      && |h| == (if logo then 5 else 4)
      && (logo <==> h[0].DrawImage?)
      && forall i :: 0 <= i < |h| ==>
           h[i] == DrawImage(LeftMargin, PageTop)
           || (h[i].DrawText? && h[i].x == HeaderX && PageTop - 15 <= h[i].y <= PageTop + 30)
  {
  }

  /** Where the report puts things: the letterhead first, then every body
      line at the left margin and on the page, at a height between 20 and
      750, starting at 670 with the first heading. */
  lemma ReportPlacement(rec: ServiceRecord, logo: bool)
    requires ValidRecord(rec)
    ensures var ev := RenderReport(rec, logo); var h := |Letterhead(logo)|;
      && ev[..h] == Letterhead(logo)
      && ev[h] == DrawText(LeftMargin, BodyTop, "Basic Information")
      && (forall i :: h <= i < |ev| ==> !ev[i].DrawImage?)
      && (forall i :: h <= i < |ev| && ev[i].DrawText? ==> ev[i].x == LeftMargin && OnPage(ev[i].y))
  {
    var lines := BodyLines(rec);
    BodySpacings(rec);
    assert lines[0].text == "Basic Information";
    PrefixedLayout(Letterhead(logo), BodyTop, lines);
  }

  /** The letterhead never starts a page; within the body a new page begins
      right after a line drawn below the bottom margin and nowhere else, and
      the line after it is at the top of the new page. */
  lemma ReportBreaks(rec: ServiceRecord, logo: bool)
    requires ValidRecord(rec)
    ensures var ev := RenderReport(rec, logo); var h := |Letterhead(logo)|;
      forall i :: 0 <= i < |ev| ==>
        (ev[i].ShowPage? <==> i > h && ev[i - 1].DrawText? && ev[i - 1].y < BottomMargin)
    ensures var ev := RenderReport(rec, logo);
      forall i :: 0 < i < |ev| && ev[i - 1].ShowPage? ==> ev[i].DrawText? && ev[i].y == PageTop
  {
    var h := Letterhead(logo);
    var lines := BodyLines(rec);
    var ev := RenderReport(rec, logo);
    BodySpacings(rec);
    LetterheadShape(logo);
    PrefixedLayout(h, BodyTop, lines);
    forall i | 0 <= i < |h|
      ensures !ev[i].ShowPage?
      ensures ev[i] == h[i]
    {
    }
  }

  /** Every column name of a checkbox is in snake case. The boxes are checked
      five at a time, by position, so that each proof stays small for the
      solver; in each chunk the other boxes are ruled out by the position. */
  lemma BoxNameSnakeCase(b: Box)
    ensures SnakeCase(BoxName(b))
  {
    var n := Position(b);
    if n < 5 { BoxNamesSnakeCase0(b); }
    else if n < 10 { BoxNamesSnakeCase1(b); }
    else if n < 15 { BoxNamesSnakeCase2(b); }
    else if n < 20 { BoxNamesSnakeCase3(b); }
    else if n < 25 { BoxNamesSnakeCase4(b); }
    else if n < 30 { BoxNamesSnakeCase5(b); }
    else if n < 35 { BoxNamesSnakeCase6(b); }
    else if n < 40 { BoxNamesSnakeCase7(b); }
    else { BoxNamesSnakeCase8(b); }
  }

  lemma BoxNamesSnakeCase0(b: Box)
    requires 0 <= Position(b) < 5
    ensures SnakeCase(BoxName(b))
  {
    match b
    case FillValves =>
    case Pumps =>
    case WashTankArms =>
    case RinseTankArms =>
    case FinalRinse =>
    case _ => assert false;
  }

  lemma BoxNamesSnakeCase1(b: Box)
    requires 5 <= Position(b) < 10
    ensures SnakeCase(BoxName(b))
  {
    match b
    case Overflow =>
    case Drains =>
    case Racking =>
    case Curtains =>
    case Odor =>
    case _ => assert false;
  }

  lemma BoxNamesSnakeCase2(b: Box)
    requires 10 <= Position(b) < 15
    ensures SnakeCase(BoxName(b))
  {
    match b
    case Feel =>
    case StainRemoval =>
    case WaterLevels =>
    case WettabilityPoor =>
    case WettabilityGood =>
    case _ => assert false;
  }

  lemma BoxNamesSnakeCase3(b: Box)
    requires 15 <= Position(b) < 20
    ensures SnakeCase(BoxName(b))
  {
    match b
    case DrainValves =>
    case SecondLook =>
    case Coffee =>
    case Tea =>
    case HotChocolate =>
    case _ => assert false;
  }

  lemma BoxNamesSnakeCase4(b: Box)
    requires 20 <= Position(b) < 25
    ensures SnakeCase(BoxName(b))
  {
    match b
    case Juice =>
    case WarmerElement =>
    case SwitchesLights =>
    case SprayheadTubing =>
    case Brewbasket =>
    case _ => assert false;
  }

  lemma BoxNamesSnakeCase5(b: Box)
    requires 25 <= Position(b) < 30
    ensures SnakeCase(BoxName(b))
  {
    match b
    case TimerValve =>
    case RelayWiring =>
    case Thermostat =>
    case MicrometFeeder =>
    case WaterLevel =>
    case _ => assert false;
  }

  lemma BoxNamesSnakeCase6(b: Box)
    requires 30 <= Position(b) < 35
    ensures SnakeCase(BoxName(b))
  {
    match b
    case TimedCycle =>
    case Temperature =>
    case UmBypass =>
    case UmGlass =>
    case UmPump =>
    case _ => assert false;
  }

  lemma BoxNamesSnakeCase7(b: Box)
    requires 35 <= Position(b) < 40
    ensures SnakeCase(BoxName(b))
  {
    match b
    case UmAgitator =>
    case WaterValve =>
    case DripTray =>
    case Switch =>
    case TeaHead =>
    case _ => assert false;
  }

  lemma BoxNamesSnakeCase8(b: Box)
    requires 40 <= Position(b) < 45
    ensures SnakeCase(BoxName(b))
  {
    match b
    case Motor =>
    case Valve =>
    case Timer =>
    case HopperAuger =>
    case Other =>
    case _ => assert false;
  }

  /** The checklist section has one line per checkbox, in declared order;
      the line of a box says `Yes` exactly when it was ticked, and its label
      reads back to the column name. */
  lemma ChecklistReport(post: ServiceFormPost, ip: string)
    ensures var lines := ChecklistSection(ReadForm(post, ip).checkboxes);
      |lines| == BoxCount
      && forall b :: lines[Position(b)] == Label(BoxName(b)) + ": " + (if b in post.ticked then "Yes" else "No")
    ensures forall b :: Unlabel(Label(BoxName(b))) == BoxName(b)
  {
    var items := ReadForm(post, ip).checkboxes;
    forall b ensures ChecklistSection(items)[Position(b)] == ChecklistLine(BoxName(b), b in post.ticked) {
      ChecklistPosition(b);
    }
    forall b ensures Unlabel(Label(BoxName(b))) == BoxName(b) {
      BoxNameSnakeCase(b);
      LabelRoundTrip(BoxName(b));
    }
  }

  lemma FormDataDateTime(rec: ServiceRecord)
    ensures FormData(rec)[FieldKey(Date)] == OptDate(rec.date)
    ensures FormData(rec)[FieldKey(Time)] == OptTime(rec.time)
  {
  }

  /** The row stores the parsed date and time. */
  lemma RowDateTime(post: ServiceFormPost, ip: string)
    ensures var row := InsertRow(ReadForm(post, ip));
      row[FieldKey(Date)] == OptDate(ParseDate(post.date))
      && row[FieldKey(Time)] == OptTime(ParseTimeField(post.time))
  {
    var rec := ReadForm(post, ip);
    InsertRowFields(post, ip);
    FormDataDateTime(rec);
  }

  /** The report prints the date and time as `strftime` renders them. */
  lemma ShownDateTime(rec: ServiceRecord)
    requires ValidRecord(rec)
    ensures BasicInfo(rec)[3] == "Date: " + DateOrNA(rec.date)
    ensures SignatureTexts(rec)[7] == "Date: " + DateOrNA(rec.date)
    ensures BasicInfo(rec)[4] == "Time: " + TimeOrNA(rec.time)
    ensures SignatureTexts(rec)[8] == "Time: " + TimeOrNA(rec.time)
  {
  }

  /** What becomes of a posted date: parsed and shown as posted when it is a
      canonical real day, shown as `N/A` when it does not parse. */
  lemma PostedDate(s: string)
    ensures CanonicalDateText(s) && C.ValidDate(SpelledDate(s)) ==>
      ParseDate(s) == Some(SpelledDate(s)) && DateOrNA(ParseDate(s)) == s
    ensures ParseDate(s).None? ==> DateOrNA(ParseDate(s)) == NotAvailable
  {
    if CanonicalDateText(s) {
      ParseCanonicalDate(s);
      if ParseDate(s).Some? {
        FormatParsedDate(s);
      }
    }
  }

  lemma PostedTime(o: Option<string>)
    ensures Truthy(o) && CanonicalTimeText(o.value) && C.ValidTime(SpelledTime(o.value)) ==>
      ParseTimeField(o) == Some(SpelledTime(o.value)) && TimeOrNA(ParseTimeField(o)) == o.value
    ensures ParseTimeField(o).None? <==> !Truthy(o) || ParseTime(o.value).None?
    ensures ParseTimeField(o).None? ==> TimeOrNA(ParseTimeField(o)) == NotAvailable
  {
    if Truthy(o) && CanonicalTimeText(o.value) {
      ParseCanonicalTime(o.value);
      if ParseTime(o.value).Some? {
        FormatParsedTime(o.value);
      }
    }
  }

  /** Any date that parses is stored as its day and shown as that day's
      `YYYY-MM-DD` text in both places the report prints it, so a date
      posted zero-padded is shown exactly as posted; any date that does not
      parse is stored as `NULL` and shown as `N/A`. */
  lemma ReportDate(post: ServiceFormPost, ip: string)
    ensures var rec := ReadForm(post, ip);
      CanonicalDateText(post.date) && C.ValidDate(SpelledDate(post.date)) ==>
        && InsertRow(rec)[FieldKey(Date)] == DateValue(SpelledDate(post.date))
        && BasicInfo(rec)[3] == "Date: " + post.date
        && SignatureTexts(rec)[7] == "Date: " + post.date
    ensures var rec := ReadForm(post, ip);
      ParseDate(post.date).Some? ==>
        && InsertRow(rec)[FieldKey(Date)] == DateValue(ParseDate(post.date).value)
        && BasicInfo(rec)[3] == "Date: " + C.FormatDate(ParseDate(post.date).value)
        && SignatureTexts(rec)[7] == "Date: " + C.FormatDate(ParseDate(post.date).value)
    ensures var rec := ReadForm(post, ip);
      ParseDate(post.date).None? ==>
        && InsertRow(rec)[FieldKey(Date)] == Null
        && BasicInfo(rec)[3] == "Date: " + NotAvailable
        && SignatureTexts(rec)[7] == "Date: " + NotAvailable
  {
    var rec := ReadForm(post, ip);
    RowDateTime(post, ip);
    ShownDateTime(rec);
    PostedDate(post.date);
  }

  /** Any time that parses is stored and shown as its `HH:MM` text, so a
      time posted as `HH:MM` is shown as posted; a missing or empty time is
      stored as `NULL` and shown as `N/A`, as is one that does not parse. */
  lemma ReportTime(post: ServiceFormPost, ip: string)
    ensures var rec := ReadForm(post, ip);
      Truthy(post.time) && CanonicalTimeText(post.time.value) && C.ValidTime(SpelledTime(post.time.value)) ==>
        && InsertRow(rec)[FieldKey(Time)] == TimeValue(SpelledTime(post.time.value))
        && BasicInfo(rec)[4] == "Time: " + post.time.value
    ensures var rec := ReadForm(post, ip);
      ParseTimeField(post.time).Some? ==>
        && InsertRow(rec)[FieldKey(Time)] == TimeValue(ParseTimeField(post.time).value)
        && BasicInfo(rec)[4] == "Time: " + C.FormatTime(ParseTimeField(post.time).value)
    ensures var rec := ReadForm(post, ip);
      ParseTimeField(post.time).None? ==>
        && InsertRow(rec)[FieldKey(Time)] == Null
        && BasicInfo(rec)[4] == "Time: " + NotAvailable
  {
    var rec := ReadForm(post, ip);
    RowDateTime(post, ip);
    ShownDateTime(rec);
    PostedTime(post.time);
  }

  const Subject := "Service Form Submission"
  const AttachmentName := "Service_Form_Details.pdf"
  const CustomerBody :=
    "The service is complete. Please find the details in the attached PDF file. "
    + "Please reach out to your Graves Foods service technician if you have any questions or concerns "
    + "about your service. Thank you for being a valued Graves Foods customer!"
  const CompanyBody :=
    "The service is complete. Please find the details in the attached PDF file. "
    + "The customer has been sent a copy of the PDF as well."

  /** `send_email`: from the configured sender, with the report attached. */
  function Mail(mail: MailSettings, to: Option<string>, body: string, report: Document<Key>): Message<Key> {
    Message(mail.fromEmail, to, Subject, body, report, AttachmentName)
  }

  /** The steps of `submit_form` after the record is read: insert the row,
      draw the report, then send the same report twice, first to the
      customer with the customer text, then to the company address with the
      company text, both under the same subject and file name. */
  function SendPlan(mail: MailSettings, customerEmail: string, row: map<Key, Value<Key>>, report: Document<Key>): (plan: seq<Effect<Key>>)
    ensures InsertRenderSend(plan) && |plan| == 4
    ensures plan[0] == Insert(row) && plan[1] == Render(report)
    ensures plan[2].message.recipient == Some(customerEmail) && plan[2].message.body == CustomerBody
    ensures plan[3].message.recipient == mail.companyEmail && plan[3].message.body == CompanyBody
    ensures forall i :: 2 <= i < 4 ==>
      plan[i].message.subject == Subject && plan[i].message.filename == AttachmentName
      && plan[i].message.sender == mail.fromEmail
  {
    [ Insert(row),
      Render(report),
      Send(Mail(mail, Some(customerEmail), CustomerBody, report)),
      Send(Mail(mail, mail.companyEmail, CompanyBody, report)) ]
  }

  /** The mail steps of `submit_form` for a stored row and a drawn report:
      the row is the first thing stored, no e-mail leaves without both
      addresses, a failure within the four steps ends in a server error, and
      a confirmation follows all four steps and greets the customer. */
  function Dispatch(mail: MailSettings, customerEmail: string, row: map<Key, Value<Key>>, report: Document<Key>, failure: Option<nat>, name: Option<string>): (out: Outcome<Key>)
    ensures out.completed != [] ==> out.completed[0] == Insert(row)
    ensures forall i :: 0 <= i < |out.completed| ==> Addressed(out.completed[i])
    ensures out.response.Confirmation? ==> |out.completed| == 4
    ensures out.response.Confirmation? ==> out.response.customerName == name
    ensures failure.Some? && failure.value < 4 ==> out.response == ServerError
  {
    Run(SendPlan(mail, customerEmail, row, report), failure, name)
  }

  /** `submit_form` with `failure` the first step that raises for reasons
      outside the model: the row read from the post is the first thing
      stored, and a failure within the four steps ends in a server error. */
  function Submit(mail: MailSettings, post: ServiceFormPost, ip: string, logo: bool, failure: Option<nat>): (out: Outcome<Key>)
    ensures out.completed != [] ==> out.completed[0] == Insert(InsertRow(ReadForm(post, ip)))
    ensures failure.Some? && failure.value < 4 ==> out.response == ServerError
  {
    var rec := ReadForm(post, ip);
    Dispatch(mail, post.customerEmail, InsertRow(rec), Canvas(RenderReport(rec, logo)), failure, Some(post.customerName))
  }

  /** The company hears of a submission only after the customer's e-mail
      went out: a customer send that fails before delivery leaves the row
      inserted and no e-mail sent, with the sender address unset no e-mail goes out at all, and
      with only the company address unset the customer still gets the
      report but the request ends in a server error. */
  lemma SendPlanOrder(mail: MailSettings, customerEmail: string, row: map<Key, Value<Key>>, report: Document<Key>, failure: Option<nat>, name: Option<string>)
    ensures var plan := SendPlan(mail, customerEmail, row, report); var out := Run(plan, failure, name);
      failure == Some(2) ==>
        out.completed == [Insert(row), Render(report)] && out.raised == Some(plan[2]) && out.response == ServerError
    ensures var plan := SendPlan(mail, customerEmail, row, report); var out := Run(plan, failure, name);
      failure.None? && mail.fromEmail.None? ==>
        out.completed == plan[..2] && out.raised == Some(plan[2]) && out.response == ServerError
    ensures var plan := SendPlan(mail, customerEmail, row, report); var out := Run(plan, failure, name);
      failure.None? && mail.fromEmail.Some? && mail.companyEmail.None? ==>
        out.completed == plan[..3] && out.raised == Some(plan[3]) && out.response == ServerError
    ensures var plan := SendPlan(mail, customerEmail, row, report); var out := Run(plan, failure, name);
      out.response.Confirmation? <==>
        (failure.None? || failure.value >= 4) && mail.companyEmail.Some? && mail.fromEmail.Some?
  {
    var plan := SendPlan(mail, customerEmail, row, report);
    var fromThree := if mail.companyEmail.None? || mail.fromEmail.None? then Some(3) else None;
    var first := if mail.fromEmail.None? then Some(2) else fromThree;
    assert Unaddressed(plan, 4) == None;
    assert Unaddressed(plan, 3) == fromThree;
    assert Unaddressed(plan, 2) == first;
    assert Unaddressed(plan, 1) == first;
    assert Unaddressed(plan, 0) == first;
  }

  /** A confirmed submission inserted the row for the post, drew its report,
      and mailed it to the customer and the company; the confirmation page
      greets the posted customer name. */
  lemma SubmitConfirmed(mail: MailSettings, post: ServiceFormPost, ip: string, logo: bool, failure: Option<nat>)
    ensures var out := Submit(mail, post, ip, logo, failure); var rec := ReadForm(post, ip);
      out.response.Confirmation? ==>
        && out.response.customerName == Some(post.customerName)
        && out.completed == SendPlan(mail, post.customerEmail, InsertRow(rec), Canvas(RenderReport(rec, logo)))
  {
  }
}
