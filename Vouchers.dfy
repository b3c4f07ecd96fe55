/** The hotspot voucher engine: packages, batch generation of voucher cards
    with random 4-4-2 digit codes and running serial numbers, the saved card
    designs, and the voucher search. The random draws, the random ids and the
    clock readings the handlers use are parameters. */
module Vouchers {
  import opened Wrappers
  import opened Seqs
  import opened Keyed
  import opened Text

  datatype Pattern = NoPattern | Dots | Lines | Circuit | Mesh
  datatype BorderStyle = NoBorder | Solid | Dashed | Double
  datatype Layout = Classic | Modern | Minimal | Gradient

  /** The look of a printed card. */
  datatype VoucherTemplate = VoucherTemplate(
    backgroundColor: string,
    secondaryColor: string,
    textColor: string,
    showLogo: bool,
    showQR: bool,
    pattern: Pattern,
    borderStyle: BorderStyle,
    layout: Layout)

  /** The design the designer starts with. */
  const DefaultTemplate: VoucherTemplate :=
    VoucherTemplate("#006a4e", "#f42a41", "#ffffff", true, true, Mesh, Solid, Modern)

  datatype SavedTemplate = SavedTemplate(id: string, templateName: string, createdAt: string, design: VoucherTemplate)

  /** The three stock designs of the template library. */
  const PresetTemplates: seq<SavedTemplate> := [
    SavedTemplate("t1", "Classic ISP", "2024-01-01",
                  VoucherTemplate("#006a4e", "#ffffff", "#ffffff", true, true, Mesh, Solid, Modern)),
    SavedTemplate("t2", "Premium Red", "2024-01-01",
                  VoucherTemplate("#f42a41", "#000000", "#ffffff", true, true, Circuit, Double, Gradient)),
    SavedTemplate("t3", "Eco Light", "2024-01-01",
                  VoucherTemplate("#f0fdf4", "#006a4e", "#064e3b", true, true, Dots, Dashed, Classic))
  ]

  /** The "Toggle Gradient" button: Modern becomes Gradient, every other layout Modern. */
  function ToggledLayout(l: Layout): (r: Layout)
    ensures r == Gradient <==> l == Modern
    ensures r == Modern <==> l != Modern
  {
    if l == Modern then Gradient else Modern
  }

  /** Pressed twice, the button returns Modern and Gradient designs to where they were;
      a Classic or Minimal design ends at Gradient. */
  lemma ToggledLayoutTwice(l: Layout)
    ensures l == Modern || l == Gradient ==> ToggledLayout(ToggledLayout(l)) == l
    ensures l == Classic || l == Minimal ==> ToggledLayout(ToggledLayout(l)) == Gradient
  {
  }

  datatype HotspotPackage = HotspotPackage(id: string, name: string, price: int, validity: string, limit: string)

  function PackageId(p: HotspotPackage): string
  {
    p.id
  }

  function TemplateId(t: SavedTemplate): string
  {
    t.id
  }

  const InitialPackages: seq<HotspotPackage> := [
    HotspotPackage("p1", "500MB Daily", 10, "1 Day", "500MB"),
    HotspotPackage("p2", "1GB Standard", 20, "2 Days", "1GB"),
    HotspotPackage("p3", "Unlimited Monthly", 500, "30 Days", "Unlimited")
  ]

  datatype VoucherStatus = Unused | Used | Expired

  /** A voucher card; `mobile` is "" when absent. */
  datatype VoucherCard = VoucherCard(
    id: string,
    code: string,
    serial: string,
    plan: string,
    price: int,
    validity: string,
    status: VoucherStatus,
    createdAt: string,
    mobile: string,
    design: VoucherTemplate)

  /** `Math.floor(low + r * span)` for a draw `r` in [0, 1). */
  function CodeGroup(r: real, low: int, span: nat): (v: int)
    requires 0.0 <= r < 1.0 && span > 0
    ensures low <= v < low + span
  {
    var x := low as real + r * span as real;
    assert r * span as real < span as real;
    x.Floor
  }

  /** The three draws one call of `generateCode` makes. */
  datatype CodeDraws = CodeDraws(r1: real, r2: real, r3: real)

  predicate InUnitRange(d: CodeDraws)
  {
    0.0 <= d.r1 < 1.0 && 0.0 <= d.r2 < 1.0 && 0.0 <= d.r3 < 1.0
  }

  /** `generateCode()`: four digits in 1000..9999, `-`, four digits in
      1000..9999, `-`, two digits in 10..98; twelve characters in all. */
  function VoucherCode(d: CodeDraws): (code: string)
    requires InUnitRange(d)
    ensures |code| == 12 && code[4] == '-' && code[9] == '-'
    ensures AllDigits(code[..4]) && AllDigits(code[5..9]) && AllDigits(code[10..])
    ensures 1000 <= ParseDigits(code[..4]) <= 9999 && 1000 <= ParseDigits(code[5..9]) <= 9999
    ensures 10 <= ParseDigits(code[10..]) <= 98
  {
    var p1, p2, p3 := CodeGroup(d.r1, 1000, 9000), CodeGroup(d.r2, 1000, 9000), CodeGroup(d.r3, 10, 89);
    GroupText(p1, 4);
    GroupText(p2, 4);
    GroupText(p3, 2);
    CodeLayout(Decimal(p1), Decimal(p2), Decimal(p3));
    Decimal(p1) + "-" + Decimal(p2) + "-" + Decimal(p3)
  }

  /** A group of four digits (1000..9999) or two digits (10..99) is written at exactly that width. */
  lemma GroupText(p: nat, w: nat)
    requires (w == 4 && 1000 <= p <= 9999) || (w == 2 && 10 <= p <= 99)
    ensures |Decimal(p)| == w && ParseDigits(Decimal(p)) == p
  {
    if w == 4 {
      DecimalFourDigits(p);
    } else {
      DecimalTwoDigits(p);
    }
    DecimalRoundTrip(p);
  }

  /** Where the three groups sit in a code. */
  lemma CodeLayout(g1: string, g2: string, g3: string)
    requires |g1| == 4 && |g2| == 4 && |g3| == 2
    ensures var code := g1 + "-" + g2 + "-" + g3;
            && |code| == 12 && code[4] == '-' && code[9] == '-'
            && code[..4] == g1 && code[5..9] == g2 && code[10..] == g3
  {
    var code := g1 + "-" + g2 + "-" + g3;
    assert code[..4] == g1 && code[5..9] == g2 && code[10..] == g3;
  }

  /** `'SN-' + k`. */
  function Serial(k: nat): (s: string)
    ensures "SN-" <= s && s[3..] == Decimal(k)
  {
    "SN-" + Decimal(k)
  }

  /** What one voucher of a batch receives from `Math.random`: its id and its code draws. */
  datatype VoucherDraw = VoucherDraw(id: string, code: CodeDraws)

  predicate DrawsInRange(draws: seq<VoucherDraw>)
  {
    forall i :: 0 <= i < |draws| ==> InUnitRange(draws[i].code)
  }

  /** The voucher at position i of a batch made after `oldCount` earlier vouchers. */
  function MakeVoucher(pkg: HotspotPackage, oldCount: nat, i: nat, draw: VoucherDraw,
                       createdAt: string, design: VoucherTemplate): (v: VoucherCard)
    requires InUnitRange(draw.code)
    ensures v.serial == Serial(oldCount + i + 1001) && v.serial[3..] == Decimal(oldCount + i + 1001)
    ensures |v.code| == 12 && v.code[4] == '-' && v.code[9] == '-'
    ensures v.status == Unused && v.mobile == "" && v.design == design
    ensures v.plan == pkg.name && v.price == pkg.price && v.validity == pkg.validity
  {
    VoucherCard(draw.id, VoucherCode(draw.code), Serial(oldCount + i + 1001), pkg.name, pkg.price,
                pkg.validity, Unused, createdAt, "", design)
  }

  /** `Array.from({ length: genCount }).map(...)`: one voucher per draw. */
  function Batch(pkg: HotspotPackage, oldCount: nat, draws: seq<VoucherDraw>,
                 createdAt: string, design: VoucherTemplate): (b: seq<VoucherCard>)
    requires DrawsInRange(draws)
    ensures |b| == |draws|
    ensures forall i :: 0 <= i < |b| ==>
              && b[i].serial == Serial(oldCount + i + 1001)
              && b[i].plan == pkg.name && b[i].price == pkg.price && b[i].validity == pkg.validity
              && b[i].status == Unused && b[i].design == design && b[i].id == draws[i].id
              && b[i].code == VoucherCode(draws[i].code)
  {
    seq(|draws|, i requires 0 <= i < |draws| => MakeVoucher(pkg, oldCount, i, draws[i], createdAt, design))
  }

  /** `Array.from({ length })` makes no element for a length of zero or below. */
  function BatchSize(genCount: int): (n: nat)
    ensures genCount <= n && (n == genCount || n == 0)
  {
    if genCount > 0 then genCount else 0
  }

  /** The serials on a list of vouchers. */
  function Serials(vs: seq<VoucherCard>): set<string>
  {
    set i | 0 <= i < |vs| :: vs[i].serial
  }

  /** SN-1001 up to SN-(1000 + n). */
  function SerialRange(lo: nat, hi: nat): set<string>
  {
    set k | lo <= k < hi :: Serial(k)
  }

  /** The serials of `vs` are exactly SN-1001 … SN-(1000 + |vs|), each on one voucher. */
  predicate SerialsExact(vs: seq<VoucherCard>)
  {
    && Serials(vs) == SerialRange(1001, 1001 + |vs|)
    && forall i, j :: 0 <= i < j < |vs| ==> vs[i].serial != vs[j].serial
  }

  /** Two serials are equal exactly when their numbers are. */
  lemma SerialInjective(m: nat, n: nat)
    ensures Serial(m) == Serial(n) <==> m == n
  {
    if Serial(m) == Serial(n) {
      PrefixedDecimalInjective("SN-", m, n);
    }
  }

  lemma BatchSerials(pkg: HotspotPackage, oldCount: nat, draws: seq<VoucherDraw>,
                     createdAt: string, design: VoucherTemplate)
    requires DrawsInRange(draws)
    ensures Serials(Batch(pkg, oldCount, draws, createdAt, design))
         == SerialRange(oldCount + 1001, oldCount + 1001 + |draws|)
  {
    var b := Batch(pkg, oldCount, draws, createdAt, design);
    forall s | s in SerialRange(oldCount + 1001, oldCount + 1001 + |draws|)
      ensures s in Serials(b)
    {
      var k :| oldCount + 1001 <= k < oldCount + 1001 + |draws| && s == Serial(k);
      assert b[k - oldCount - 1001].serial == s;
    }
  }

  lemma SerialsAppend(a: seq<VoucherCard>, b: seq<VoucherCard>)
    ensures Serials(a + b) == Serials(a) + Serials(b)
  {
    var ab := a + b;
    forall s | s in Serials(b)
      ensures s in Serials(ab)
    {
      var i :| 0 <= i < |b| && b[i].serial == s;
      assert ab[|a| + i] == b[i];
    }
    forall s | s in Serials(a)
      ensures s in Serials(ab)
    {
      var i :| 0 <= i < |a| && a[i].serial == s;
      assert ab[i] == a[i];
    }
    forall s | s in Serials(ab)
      ensures s in Serials(a) + Serials(b)
    {
      var i :| 0 <= i < |ab| && ab[i].serial == s;
      if i < |a| {
        assert ab[i] == a[i];
      } else {
        assert ab[i] == b[i - |a|];
      }
    }
  }

  /** A serial of an exactly numbered list is at most SN-(1000 + |vs|). */
  lemma SerialOfExact(vs: seq<VoucherCard>, j: nat) returns (k: nat)
    requires SerialsExact(vs) && j < |vs|
    ensures 1001 <= k < 1001 + |vs| && vs[j].serial == Serial(k)
  {
    assert vs[j].serial in Serials(vs);
    k :| 1001 <= k < 1001 + |vs| && vs[j].serial == Serial(k);
  }

  lemma SerialRangeJoin(a: nat, b: nat, c: nat)
    requires a <= b <= c
    ensures SerialRange(b, c) + SerialRange(a, b) == SerialRange(a, c)
  {
  }

  /** The vouchers of `b` carry the serials SN-base, SN-(base + 1), … in order. */
  predicate NumberedFrom(b: seq<VoucherCard>, base: nat)
  {
    forall i :: 0 <= i < |b| ==> b[i].serial == Serial(base + i)
  }

  lemma BatchNumbered(pkg: HotspotPackage, oldCount: nat, draws: seq<VoucherDraw>,
                      createdAt: string, design: VoucherTemplate)
    requires DrawsInRange(draws)
    ensures NumberedFrom(Batch(pkg, oldCount, draws, createdAt, design), oldCount + 1001)
  {
  }

  /** A serial of the new vouchers and a serial of the older list never coincide. */
  lemma NumberedSerialFresh(b: seq<VoucherCard>, vs: seq<VoucherCard>, i: nat, j: nat)
    requires SerialsExact(vs) && NumberedFrom(b, |vs| + 1001) && i < |b| && j < |vs|
    ensures b[i].serial != vs[j].serial
  {
    var k := SerialOfExact(vs, j);
    SerialInjective(|vs| + 1001 + i, k);
  }

  /** Vouchers numbered on from an exactly numbered list, prepended to it, keep the serials pairwise distinct. */
  lemma PrependNumberedDistinct(b: seq<VoucherCard>, vs: seq<VoucherCard>)
    requires SerialsExact(vs) && NumberedFrom(b, |vs| + 1001)
    ensures forall i, j :: 0 <= i < j < |b + vs| ==> (b + vs)[i].serial != (b + vs)[j].serial
  {
    var r := b + vs;
    forall i, j | 0 <= i < j < |r|
      ensures r[i].serial != r[j].serial
    {
      if j < |b| {
        assert r[i] == b[i] && r[j] == b[j];
        SerialInjective(|vs| + 1001 + i, |vs| + 1001 + j);
      } else if i < |b| {
        assert r[i] == b[i] && r[j] == vs[j - |b|];
        NumberedSerialFresh(b, vs, i, j - |b|);
      } else {
        assert r[i] == vs[i - |b|] && r[j] == vs[j - |b|];
      }
    }
  }

  /** The serials after a batch is prepended: the old range extended by the batch's. */
  lemma BatchExtendsRange(vs: seq<VoucherCard>, pkg: HotspotPackage, draws: seq<VoucherDraw>,
                          createdAt: string, design: VoucherTemplate)
    requires DrawsInRange(draws) && Serials(vs) == SerialRange(1001, 1001 + |vs|)
    ensures var r := Batch(pkg, |vs|, draws, createdAt, design) + vs;
            Serials(r) == SerialRange(1001, 1001 + |r|)
  {
    var b := Batch(pkg, |vs|, draws, createdAt, design);
    BatchSerials(pkg, |vs|, draws, createdAt, design);
    SerialsAppend(b, vs);
    SerialRangeJoin(1001, |vs| + 1001, |vs| + 1001 + |draws|);
  }

  /** A new batch prepended to an exactly numbered list keeps it exactly numbered. */
  lemma BatchKeepsSerialsExact(vs: seq<VoucherCard>, pkg: HotspotPackage, draws: seq<VoucherDraw>,
                               createdAt: string, design: VoucherTemplate)
    requires DrawsInRange(draws) && SerialsExact(vs)
    ensures SerialsExact(Batch(pkg, |vs|, draws, createdAt, design) + vs)
  {
    BatchExtendsRange(vs, pkg, draws, createdAt, design);
    BatchNumbered(pkg, |vs|, draws, createdAt, design);
    PrependNumberedDistinct(Batch(pkg, |vs|, draws, createdAt, design), vs);
  }

  /** A package form: every package field except the id. */
  datatype PackageForm = PackageForm(name: string, price: int, validity: string, limit: string)

  /** The form the "new package" dialog starts with. */
  const NewPackageForm: PackageForm := PackageForm("", 0, "1 Day", "1GB")

  function PackageFormOf(p: HotspotPackage): PackageForm
  {
    PackageForm(p.name, p.price, p.validity, p.limit)
  }

  /** `{ ...p, ...form }`: the form overrides the fields, the id stays. */
  function ApplyPackageForm(p: HotspotPackage, f: PackageForm): (r: HotspotPackage)
    ensures r.id == p.id && PackageFormOf(r) == f
  {
    HotspotPackage(p.id, f.name, f.price, f.validity, f.limit)
  }

  function MergePackageForm(f: PackageForm): HotspotPackage -> HotspotPackage
  {
    p => ApplyPackageForm(p, f)
  }

  /** `updated[0]?.id || ''`: the first package's id, or "" for an empty list. */
  function FirstPackageId(packages: seq<HotspotPackage>): (id: string)
    ensures packages == [] ==> id == ""
    ensures packages != [] ==> id == packages[0].id
  {
    if packages == [] then "" else packages[0].id
  }

  /** The selection after deleting package `id`: moved to the first remaining
      package (or "") when the deleted package was the selected one. */
  function SelectionAfterDelete(selected: string, id: string, remaining: seq<HotspotPackage>): (r: string)
    ensures selected != id ==> r == selected
    ensures selected == id && remaining != [] ==> r == remaining[0].id
    ensures selected == id && remaining == [] ==> r == ""
  {
    if selected == id then FirstPackageId(remaining) else selected
  }

  /** A selection that names a remaining package, or nothing at all, stays valid after a delete. */
  lemma DeleteKeepsSelectionValid(packages: seq<HotspotPackage>, selected: string, id: string)
    requires selected == "" || exists i :: 0 <= i < |packages| && packages[i].id == selected
    ensures var remaining := RemoveKey(packages, PackageId, id);
            var s := SelectionAfterDelete(selected, id, remaining);
            s == "" || exists i :: 0 <= i < |remaining| && remaining[i].id == s
  {
    var remaining := RemoveKey(packages, PackageId, id);
    var s := SelectionAfterDelete(selected, id, remaining);
    if s != "" {
      if selected == id {
        assert remaining[0].id == s;
      } else {
        var i :| 0 <= i < |packages| && packages[i].id == selected;
        assert packages[i] in remaining;
        var j :| 0 <= j < |remaining| && remaining[j] == packages[i];
        assert remaining[j].id == s;
      }
    }
  }

  /** Voucher code, serial, or plan name (case-insensitive) contains the query. */
  predicate VoucherMatches(query: string, v: VoucherCard)
  {
    Contains(v.code, query) || Contains(v.serial, query) || Contains(Lower(v.plan), Lower(query))
  }

  function VoucherMatcher(query: string): VoucherCard -> bool
  {
    v => VoucherMatches(query, v)
  }

  /** `filteredVouchers`: the matching vouchers in list order; an empty query keeps them all. */
  function FilteredVouchers(vouchers: seq<VoucherCard>, query: string): (r: seq<VoucherCard>)
    ensures IsSubseq(r, vouchers)
    ensures forall v :: v in r <==> v in vouchers && VoucherMatches(query, v)
    ensures query == "" ==> r == vouchers
  {
    assert query == "" ==> forall i :: 0 <= i < |vouchers| ==> Contains(vouchers[i].code, query);
    Filter(vouchers, VoucherMatcher(query))
  }

  /** What the generate button did. */
  datatype GenerateOutcome = NoPackageSelected | Generated(count: nat)

  /** The state of the voucher designer. */
  class VoucherDesigner {
    var template: VoucherTemplate
    var packages: seq<HotspotPackage>
    var selectedPackageId: string
    var vouchers: seq<VoucherCard>
    var userTemplates: seq<SavedTemplate>

    /** The designer opens with the three stock packages, the first selected,
        no vouchers, and the designs saved in the browser. */
    constructor (saved: seq<SavedTemplate>)
      ensures template == DefaultTemplate && packages == InitialPackages && selectedPackageId == "p1"
      ensures vouchers == [] && userTemplates == saved
      ensures SerialsExact(vouchers)
    {
      template := DefaultTemplate;
      packages := InitialPackages;
      selectedPackageId := FirstPackageId(InitialPackages);
      vouchers := [];
      userTemplates := saved;
    }

    /** The package picker of the generator. */
    method SelectPackage(id: string)
      modifies this
      ensures selectedPackageId == id
      ensures template == old(template) && packages == old(packages)
      ensures vouchers == old(vouchers) && userTemplates == old(userTemplates)
    {
      selectedPackageId := id;
    }

    /** The design controls, or a click on a saved design. */
    method SetDesign(t: VoucherTemplate)
      modifies this
      ensures template == t
      ensures packages == old(packages) && selectedPackageId == old(selectedPackageId)
      ensures vouchers == old(vouchers) && userTemplates == old(userTemplates)
    {
      template := t;
    }

    /** `handleGenerate`: with the selected package found, prepends a batch of
        `genCount` vouchers (none when it is zero or below) cut from it with the
        current design; with no such package, changes nothing. */
    method Generate(genCount: int, draws: seq<VoucherDraw>, createdAt: string) returns (r: GenerateOutcome)
      requires |draws| == BatchSize(genCount) && DrawsInRange(draws)
      modifies this
      ensures var pkg := FindKey(old(packages), PackageId, old(selectedPackageId));
              && (pkg.None? ==> r == NoPackageSelected && vouchers == old(vouchers))
              && (pkg.Some? ==>
                    && r == Generated(|draws|)
                    && vouchers == Batch(pkg.value, |old(vouchers)|, draws, createdAt, old(template)) + old(vouchers))
      ensures SerialsExact(old(vouchers)) ==> SerialsExact(vouchers)
      ensures template == old(template) && packages == old(packages)
      ensures selectedPackageId == old(selectedPackageId) && userTemplates == old(userTemplates)
    {
      var pkg := FindKey(packages, PackageId, selectedPackageId);
      if pkg.None? {
        return NoPackageSelected;
      }
      var batch := Batch(pkg.value, |vouchers|, draws, createdAt, template);
      if SerialsExact(vouchers) {
        BatchKeepsSerialsExact(vouchers, pkg.value, draws, createdAt, template);
      }
      vouchers := batch + vouchers;
      r := Generated(|draws|);
    }

    /** `handleSavePackage`: an edit merges the form into the packages with
        the edited id; an add appends a package with the fresh id `newId`
        and selects it when the list was empty. */
    method SavePackage(editing: Option<HotspotPackage>, f: PackageForm, newId: string)
      modifies this
      ensures editing.Some? ==> packages == UpdateWhere(old(packages), PackageId, editing.value.id, MergePackageForm(f))
      ensures editing.Some? ==> selectedPackageId == old(selectedPackageId)
      ensures editing.None? ==> packages == old(packages) + [HotspotPackage(newId, f.name, f.price, f.validity, f.limit)]
      ensures editing.None? && old(packages) == [] ==> selectedPackageId == newId
      ensures editing.None? && old(packages) != [] ==> selectedPackageId == old(selectedPackageId)
      ensures template == old(template) && vouchers == old(vouchers) && userTemplates == old(userTemplates)
    {
      if editing.Some? {
        packages := UpdateWhere(packages, PackageId, editing.value.id, MergePackageForm(f));
      } else {
        var wasEmpty := packages == [];
        packages := packages + [HotspotPackage(newId, f.name, f.price, f.validity, f.limit)];
        if wasEmpty {
          selectedPackageId := newId;
        }
      }
    }

    /** `deletePackage`: once confirmed, removes the packages with `id` and fixes up the selection. */
    method DeletePackage(id: string, confirmed: bool)
      modifies this
      ensures confirmed ==> packages == RemoveKey(old(packages), PackageId, id)
      ensures confirmed ==> selectedPackageId == SelectionAfterDelete(old(selectedPackageId), id, packages)
      ensures !confirmed ==> packages == old(packages) && selectedPackageId == old(selectedPackageId)
      ensures template == old(template) && vouchers == old(vouchers) && userTemplates == old(userTemplates)
    {
      if confirmed {
        packages := RemoveKey(packages, PackageId, id);
        selectedPackageId := SelectionAfterDelete(selectedPackageId, id, packages);
      }
    }

    /** `handleSaveCurrentDesign`: a cancelled or empty name changes nothing;
        otherwise the current design is prepended under that name. */
    method SaveDesign(answer: Option<string>, newId: string, createdAt: string)
      modifies this
      ensures (answer.None? || answer.value == "") ==> userTemplates == old(userTemplates)
      ensures answer.Some? && answer.value != "" ==>
                userTemplates == [SavedTemplate(newId, answer.value, createdAt, old(template))] + old(userTemplates)
      ensures template == old(template) && packages == old(packages)
      ensures selectedPackageId == old(selectedPackageId) && vouchers == old(vouchers)
    {
      if answer.None? || answer.value == "" {
        return;
      }
      userTemplates := [SavedTemplate(newId, answer.value, createdAt, template)] + userTemplates;
    }

    /** `deleteUserTemplate`: once confirmed, removes the saved designs with `id`. */
    method DeleteTemplate(id: string, confirmed: bool)
      modifies this
      ensures confirmed ==> userTemplates == RemoveKey(old(userTemplates), TemplateId, id)
      ensures !confirmed ==> userTemplates == old(userTemplates)
      ensures template == old(template) && packages == old(packages)
      ensures selectedPackageId == old(selectedPackageId) && vouchers == old(vouchers)
    {
      if confirmed {
        userTemplates := RemoveKey(userTemplates, TemplateId, id);
      }
    }
  }
}
