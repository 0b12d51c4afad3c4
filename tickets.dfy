/**
 * The two printed layouts (the customer receipt and the kitchen ticket) and
 * the dispatch of their bytes to the printer endpoint. A layout is a list
 * of formatter commands; the renderers drive an EscPosFormatter through it,
 * the item blocks in loops as the source does.
 */
module Tickets {
  import opened Wrappers
  import opened Text
  import opened Types
  import opened Seqs
  import opened Escpos

  /** One formatter call. */
  datatype Cmd = Init | Font(size: FontSize) | Bold(on: bool) | AlignTo(align: Align)
               | Line(text: string) | Blank | Separator | Cut

  /** The chunk a call appends. */
  function Encode(c: Cmd): seq<byte> {
    match c
    case Init => InitializeBytes
    case Font(s) => if s == Large then FontLargeBytes else FontNormalBytes
    case Bold(on) => if on then BoldOnBytes else BoldOffBytes
    case AlignTo(a) => [0x1B, 0x61, AlignCode(a)]
    case Line(t) => Utf8(t + "\n")
    case Blank => [0x0A]
    case Separator => Utf8(Repeat("-", 32) + "\n")
    case Cut => CutBytes
  }

  /** The chunks a run of commands appends. */
  function Render(cmds: seq<Cmd>): (r: seq<seq<byte>>)
    ensures |r| == |cmds|
  {
    seq(|cmds|, i requires 0 <= i < |cmds| => Encode(cmds[i]))
  }

  lemma RenderAppend(a: seq<Cmd>, b: seq<Cmd>)
    ensures Render(a + b) == Render(a) + Render(b)
  {
    assert forall i :: 0 <= i < |a| + |b| ==> Render(a + b)[i] == (Render(a) + Render(b))[i];
  }

  /** Appending the chunks of `b` after those of `a`. */
  lemma RenderExtend(start: seq<seq<byte>>, a: seq<Cmd>, b: seq<Cmd>)
    ensures start + Render(a) + Render(b) == start + Render(a + b)
  {
    RenderAppend(a, b);
  }

  /** Appending the chunk of `c` after those of `a`. */
  lemma RenderSnoc(start: seq<seq<byte>>, a: seq<Cmd>, c: Cmd)
    ensures start + Render(a) + [Encode(c)] == start + Render(a + [c])
  {
    RenderAppend(a, [c]);
  }

  /** Performs one command on the formatter. */
  method Emit(p: EscPosFormatter, c: Cmd)
    modifies p
    ensures p.chunks == old(p.chunks) + [Encode(c)]
  {
    match c
    case Init => p.Initialize();
    case Font(s) => p.SetFontSize(s);
    case Bold(on) => p.SetBold(on);
    case AlignTo(a) => p.SetAlign(a);
    case Line(t) => p.WriteLine(t);
    case Blank => p.WriteEmptyLine();
    case Separator => p.WriteSeparator("-", 32);
    case Cut => p.CutPaper();
  }

  /** Performs a straight run of commands. */
  method EmitAll(p: EscPosFormatter, cmds: seq<Cmd>)
    modifies p
    ensures p.chunks == old(p.chunks) + Render(cmds)
  {
    var i := 0;
    while i < |cmds|
      invariant 0 <= i <= |cmds|
      invariant p.chunks == old(p.chunks) + Render(cmds[..i])
    {
      Emit(p, cmds[i]);
      assert cmds[..i + 1] == cmds[..i] + [cmds[i]];
      RenderSnoc(old(p.chunks), cmds[..i], cmds[i]);
      i := i + 1;
    }
    assert cmds[..i] == cmds;
  }

  function Phone(o: OrderRecord): Option<string> {
    if o.customerInfo.Some? then o.customerInfo.value.phone else None
  }

  function ItemLine(item: OrderItem): string {
    item.name + " x" + IntToString(item.quantity)
  }

  /** A modifier as the receipt shows it: positive ones with a leading '+'. */
  function ModifierText(m: Money): (r: string)
    ensures m > 0 ==> r == "+" + MoneyToString(m)
    ensures m <= 0 ==> r == MoneyToString(m)
  {
    if m > 0 then "+" + MoneyToString(m) else MoneyToString(m)
  }

  function ReceiptOptionLine(opt: SelectedOption): string {
    "  - " + opt.name + " (" + ModifierText(opt.priceModifier) + ")"
  }

  function ReceiptOptionLines(opts: seq<SelectedOption>): (r: seq<Cmd>)
    ensures |r| == |opts|
  {
    if |opts| == 0 then [] else ReceiptOptionLines(opts[..|opts| - 1]) + [Line(ReceiptOptionLine(opts[|opts| - 1]))]
  }

  // ----- the customer receipt -----

  function ReceiptTitle(orderId: string, createdAt: Time, status: OrderStatus, fmtDate: Time -> string): (r: seq<Cmd>)
    ensures |r| == 12 && r[0] == Init
  {
    [Init, AlignTo(Center), Font(Large), Bold(true), Line("ORDER RECEIPT"), Blank,
     Font(Normal), Bold(false), AlignTo(Left),
     Line("Order #: " + ShortId(orderId)),
     Line("Date: " + fmtDate(createdAt)),
     Line("Status: " + StatusName(status))]
  }

  function PhoneLine(o: OrderRecord): seq<Cmd> {
    if Present(Phone(o)) then [Line("Phone: " + Phone(o).value)] else []
  }

  const ItemsHeading: seq<Cmd> := [Blank, Separator, Blank, Bold(true), Line("ITEMS:"), Bold(false), Blank]

  function ReceiptItemBlock(item: OrderItem, fmtMoney: Money -> string): seq<Cmd> {
    [Line(ItemLine(item))] + ReceiptOptionLines(item.selectedOptions) + [Line("  " + fmtMoney(item.price)), Blank]
  }

  function ReceiptItems(items: seq<OrderItem>, fmtMoney: Money -> string): seq<Cmd> {
    if |items| == 0 then []
    else ReceiptItems(items[..|items| - 1], fmtMoney) + ReceiptItemBlock(items[|items| - 1], fmtMoney)
  }

  function TotalLines(total: Money, fmtMoney: Money -> string): (r: seq<Cmd>)
    ensures |r| == 5 && r[4] == Line("TOTAL: " + fmtMoney(total))
  {
    [Separator, Blank, Bold(true), Font(Large), Line("TOTAL: " + fmtMoney(total))]
  }

  function PaymentLines(payment: Option<PaymentInfo>, fmtMoney: Money -> string): seq<Cmd> {
    if payment.None? then []
    else [Font(Normal),
          Line("Payment: " + Upper(ProviderName(payment.value.paymentMethod))),
          Line("Paid: " + fmtMoney(payment.value.amount))]
  }

  const ReceiptClosing: seq<Cmd> :=
    [Blank, Blank, AlignTo(Center), Bold(false), Font(Normal), Line("Thank you for your order!"), Blank, Blank, Cut]

  function ItemPrice(item: OrderItem): Money { item.price }

  /** The receipt up to its item list. */
  function ReceiptHeader(o: OrderRecord, fmtDate: Time -> string): seq<Cmd> {
    ReceiptTitle(o.orderId, o.createdAt, o.status, fmtDate) + PhoneLine(o) + ItemsHeading
  }

  /** The receipt after its item list. */
  function ReceiptFooter(total: Money, payment: Option<PaymentInfo>, fmtMoney: Money -> string): (r: seq<Cmd>)
    ensures |r| >= 1 && r[|r| - 1] == Cut
  {
    TotalLines(total, fmtMoney) + PaymentLines(payment, fmtMoney) + ReceiptClosing
  }

  /** The whole receipt; its TOTAL is the sum of the stored line prices. */
  function ReceiptCommands(o: OrderRecord, fmtDate: Time -> string, fmtMoney: Money -> string): seq<Cmd> {
    ReceiptHeader(o, fmtDate) + ReceiptItems(o.items, fmtMoney) + ReceiptFooter(SumOf(o.items, ItemPrice), o.paymentInfo, fmtMoney)
  }

  /** One '  - name (modifier)' line per selected option. */
  method EmitReceiptOptions(p: EscPosFormatter, opts: seq<SelectedOption>)
    modifies p
    ensures p.chunks == old(p.chunks) + Render(ReceiptOptionLines(opts))
  {
    var j := 0;
    while j < |opts|
      invariant 0 <= j <= |opts|
      invariant p.chunks == old(p.chunks) + Render(ReceiptOptionLines(opts[..j]))
    {
      Emit(p, Line(ReceiptOptionLine(opts[j])));
      assert opts[..j + 1][..j] == opts[..j];
      RenderSnoc(old(p.chunks), ReceiptOptionLines(opts[..j]), Line(ReceiptOptionLine(opts[j])));
      j := j + 1;
    }
    assert opts[..j] == opts;
  }

  /** The receipt lines of one item: name and quantity, each option, the line price. */
  method EmitReceiptItem(p: EscPosFormatter, item: OrderItem, fmtMoney: Money -> string)
    modifies p
    ensures p.chunks == old(p.chunks) + Render(ReceiptItemBlock(item, fmtMoney))
  {
    ghost var start := p.chunks;
    var lead := [Line(ItemLine(item))];
    EmitAll(p, lead);
    var opts := item.selectedOptions;
    if |opts| > 0 {
      EmitReceiptOptions(p, opts);
    } else {
      assert ReceiptOptionLines(opts) == [];
    }
    RenderExtend(start, lead, ReceiptOptionLines(opts));
    var itemTotal := item.price;
    var tail := [Line("  " + fmtMoney(itemTotal)), Blank];
    EmitAll(p, tail);
    RenderExtend(start, lead + ReceiptOptionLines(opts), tail);
  }

  /** The receipt up to its item list: title, the phone line when a phone is known, the items heading. */
  method EmitReceiptHeader(p: EscPosFormatter, o: OrderRecord, fmtDate: Time -> string)
    modifies p
    ensures p.chunks == old(p.chunks) + Render(ReceiptHeader(o, fmtDate))
  {
    ghost var start := p.chunks;
    var title := ReceiptTitle(o.orderId, o.createdAt, o.status, fmtDate);
    EmitAll(p, title);
    if Present(Phone(o)) {
      EmitAll(p, [Line("Phone: " + Phone(o).value)]);
    } else {
      EmitAll(p, []);
    }
    RenderExtend(start, title, PhoneLine(o));
    EmitAll(p, ItemsHeading);
    RenderExtend(start, title + PhoneLine(o), ItemsHeading);
  }

  /** The receipt after its item list: TOTAL, the payment lines when paid, the closing. */
  method EmitReceiptFooter(p: EscPosFormatter, total: Money, payment: Option<PaymentInfo>, fmtMoney: Money -> string)
    modifies p
    ensures p.chunks == old(p.chunks) + Render(ReceiptFooter(total, payment, fmtMoney))
  {
    ghost var start := p.chunks;
    var totalLines := TotalLines(total, fmtMoney);
    EmitAll(p, totalLines);
    if payment.Some? {
      EmitAll(p, PaymentLines(payment, fmtMoney));
    } else {
      EmitAll(p, []);
    }
    RenderExtend(start, totalLines, PaymentLines(payment, fmtMoney));
    EmitAll(p, ReceiptClosing);
    RenderExtend(start, totalLines + PaymentLines(payment, fmtMoney), ReceiptClosing);
  }

  /** The item blocks of the receipt, one per item in order, and the sum of their line prices. */
  method EmitReceiptItems(p: EscPosFormatter, items: seq<OrderItem>, fmtMoney: Money -> string) returns (totalAmount: Money)
    modifies p
    ensures p.chunks == old(p.chunks) + Render(ReceiptItems(items, fmtMoney))
    ensures totalAmount == SumOf(items, ItemPrice)
  {
    ghost var start := p.chunks;
    assert items[..0] == [];
    totalAmount := 0;
    var i := 0;
    while i < |items|
      invariant 0 <= i <= |items|
      invariant p.chunks == start + Render(ReceiptItems(items[..i], fmtMoney))
      invariant totalAmount == SumOf(items[..i], ItemPrice)
    {
      var item := items[i];
      EmitReceiptItem(p, item, fmtMoney);
      RenderExtend(start, ReceiptItems(items[..i], fmtMoney), ReceiptItemBlock(item, fmtMoney));
      assert items[..i + 1][..i] == items[..i] && items[..i + 1][i] == item;
      var itemTotal := item.price;
      totalAmount := totalAmount + itemTotal;
      i := i + 1;
    }
    assert items[..i] == items;
  }

  /** formatOrderReceipt. `fmtDate` and `fmtMoney` stand for the locale formatting. */
  method FormatOrderReceipt(o: OrderRecord, fmtDate: Time -> string, fmtMoney: Money -> string) returns (data: seq<byte>)
    ensures data == Flatten(Render(ReceiptCommands(o, fmtDate, fmtMoney)))
  {
    var p := new EscPosFormatter();
    ghost var head := ReceiptHeader(o, fmtDate);
    ghost var items := ReceiptItems(o.items, fmtMoney);
    EmitReceiptHeader(p, o, fmtDate);
    assert p.chunks == Render(head);
    var totalAmount := EmitReceiptItems(p, o.items, fmtMoney);
    RenderAppend(head, items);
    ghost var foot := ReceiptFooter(totalAmount, o.paymentInfo, fmtMoney);
    EmitReceiptFooter(p, totalAmount, o.paymentInfo, fmtMoney);
    RenderAppend(head + items, foot);
    assert p.chunks == Render(ReceiptCommands(o, fmtDate, fmtMoney));
    data := p.GetBuffer();
  }

  // ----- the kitchen ticket -----

  function KitchenTitle(orderId: string, createdAt: Time, fmtDate: Time -> string): (r: seq<Cmd>)
    ensures |r| == 14 && r[0] == Init
  {
    [Init, AlignTo(Center), Font(Large), Bold(true), Line("KITCHEN TICKET"), Blank,
     Font(Normal), Bold(false), AlignTo(Left),
     Line("Order #: " + ShortId(orderId)),
     Line("Time: " + fmtDate(createdAt)),
     Blank, Separator, Blank]
  }

  function KitchenOptionLines(opts: seq<SelectedOption>): (r: seq<Cmd>)
    ensures |r| == |opts|
  {
    if |opts| == 0 then [] else KitchenOptionLines(opts[..|opts| - 1]) + [Line("  * " + opts[|opts| - 1].name)]
  }

  function KitchenLead(item: OrderItem): seq<Cmd> {
    [Bold(true), Font(Large), Line(ItemLine(item)), Font(Normal), Bold(false)]
  }

  function KitchenItemBlock(item: OrderItem): seq<Cmd> {
    KitchenLead(item) + KitchenOptionLines(item.selectedOptions) + [Blank]
  }

  function KitchenItems(items: seq<OrderItem>): seq<Cmd> {
    if |items| == 0 then [] else KitchenItems(items[..|items| - 1]) + KitchenItemBlock(items[|items| - 1])
  }

  function CustomerLines(o: OrderRecord): seq<Cmd> {
    if Present(Phone(o)) then [Separator, Blank, Line("Customer: " + Phone(o).value)] else []
  }

  const KitchenClosing: seq<Cmd> := [Blank, Blank, Cut]

  function KitchenCommands(o: OrderRecord, fmtDate: Time -> string): seq<Cmd> {
    KitchenTitle(o.orderId, o.createdAt, fmtDate) + KitchenItems(o.items) + CustomerLines(o) + KitchenClosing
  }

  /** One '  * name' line per selected option. */
  method EmitKitchenOptions(p: EscPosFormatter, opts: seq<SelectedOption>)
    modifies p
    ensures p.chunks == old(p.chunks) + Render(KitchenOptionLines(opts))
  {
    var j := 0;
    while j < |opts|
      invariant 0 <= j <= |opts|
      invariant p.chunks == old(p.chunks) + Render(KitchenOptionLines(opts[..j]))
    {
      Emit(p, Line("  * " + opts[j].name));
      assert opts[..j + 1][..j] == opts[..j];
      RenderSnoc(old(p.chunks), KitchenOptionLines(opts[..j]), Line("  * " + opts[j].name));
      j := j + 1;
    }
    assert opts[..j] == opts;
  }

  /** The kitchen lines of one item: name and quantity in large bold, then each option. */
  method EmitKitchenItem(p: EscPosFormatter, item: OrderItem)
    modifies p
    ensures p.chunks == old(p.chunks) + Render(KitchenItemBlock(item))
  {
    ghost var start := p.chunks;
    var lead := KitchenLead(item);
    EmitAll(p, lead);
    var opts := item.selectedOptions;
    if |opts| > 0 {
      EmitKitchenOptions(p, opts);
    } else {
      assert KitchenOptionLines(opts) == [];
    }
    RenderExtend(start, lead, KitchenOptionLines(opts));
    EmitAll(p, [Blank]);
    RenderExtend(start, lead + KitchenOptionLines(opts), [Blank]);
  }

  /** The end of the kitchen ticket: the customer line when a phone is known, then the cut. */
  method EmitKitchenFooter(p: EscPosFormatter, o: OrderRecord)
    modifies p
    ensures p.chunks == old(p.chunks) + Render(CustomerLines(o) + KitchenClosing)
  {
    ghost var start := p.chunks;
    if Present(Phone(o)) {
      EmitAll(p, CustomerLines(o));
    } else {
      EmitAll(p, []);
    }
    EmitAll(p, KitchenClosing);
    RenderExtend(start, CustomerLines(o), KitchenClosing);
  }

  /** The item blocks of the kitchen ticket, one per item in order. */
  method EmitKitchenItems(p: EscPosFormatter, items: seq<OrderItem>)
    modifies p
    ensures p.chunks == old(p.chunks) + Render(KitchenItems(items))
  {
    ghost var start := p.chunks;
    assert items[..0] == [];
    var i := 0;
    while i < |items|
      invariant 0 <= i <= |items|
      invariant p.chunks == start + Render(KitchenItems(items[..i]))
    {
      var item := items[i];
      EmitKitchenItem(p, item);
      RenderExtend(start, KitchenItems(items[..i]), KitchenItemBlock(item));
      assert items[..i + 1][..i] == items[..i];
      i := i + 1;
    }
    assert items[..i] == items;
  }

  /** formatKitchenTicket. */
  method FormatKitchenTicket(o: OrderRecord, fmtDate: Time -> string) returns (data: seq<byte>)
    ensures data == Flatten(Render(KitchenCommands(o, fmtDate)))
  {
    var p := new EscPosFormatter();
    var head := KitchenTitle(o.orderId, o.createdAt, fmtDate);
    ghost var items := KitchenItems(o.items);
    EmitAll(p, head);
    assert p.chunks == Render(head);
    EmitKitchenItems(p, o.items);
    RenderAppend(head, items);
    EmitKitchenFooter(p, o);
    RenderAppend(head + items, CustomerLines(o) + KitchenClosing);
    assert head + items + (CustomerLines(o) + KitchenClosing) == KitchenCommands(o, fmtDate);
    assert p.chunks == Render(KitchenCommands(o, fmtDate));
    data := p.GetBuffer();
  }

  // ----- properties of the layouts -----

  lemma Framed(cmds: seq<Cmd>)
    requires |cmds| >= 2 && cmds[0] == Init && cmds[|cmds| - 1] == Cut
    ensures var data := Flatten(Render(cmds));
      |data| >= 6 && data[..2] == [0x1B, 0x40] && data[|data| - 4..] == [0x1D, 0x56, 0x42, 0x00]
  {
    var r := Render(cmds);
    FlattenFront(r);
    FlattenFront(r[..|r| - 1]);
    assert r[..|r| - 1][1..] == r[1..|r| - 1];
    assert Flatten(r) == r[0] + Flatten(r[1..|r| - 1]) + r[|r| - 1];
  }

  /** The receipt opens with ESC @ and closes with GS V B 0. */
  lemma ReceiptFramed(o: OrderRecord, fmtDate: Time -> string, fmtMoney: Money -> string)
    ensures var data := Flatten(Render(ReceiptCommands(o, fmtDate, fmtMoney)));
      |data| >= 6 && data[..2] == [0x1B, 0x40] && data[|data| - 4..] == [0x1D, 0x56, 0x42, 0x00]
  {
    var rt := ReceiptTitle(o.orderId, o.createdAt, o.status, fmtDate);
    var h := ReceiptHeader(o, fmtDate);
    var f := ReceiptFooter(SumOf(o.items, ItemPrice), o.paymentInfo, fmtMoney);
    var r := ReceiptCommands(o, fmtDate, fmtMoney);
    assert h[0] == rt[0];
    assert r[0] == h[0];
    assert r[|r| - 1] == f[|f| - 1];
    Framed(r);
  }

  /** The kitchen ticket opens with ESC @ and closes with GS V B 0. */
  lemma KitchenFramed(o: OrderRecord, fmtDate: Time -> string)
    ensures var data := Flatten(Render(KitchenCommands(o, fmtDate)));
      |data| >= 6 && data[..2] == [0x1B, 0x40] && data[|data| - 4..] == [0x1D, 0x56, 0x42, 0x00]
  {
    var kt := KitchenTitle(o.orderId, o.createdAt, fmtDate);
    var k := KitchenCommands(o, fmtDate);
    var front := kt + KitchenItems(o.items) + CustomerLines(o);
    assert k == front + KitchenClosing;
    assert k[0] == kt[0];
    assert k[|k| - 1] == KitchenClosing[2];
    Framed(k);
  }

  /** The receipt's TOTAL line sums what the items say, whatever totalAmount holds. */
  lemma ReceiptTotalFromItems(o: OrderRecord, t: Money, fmtDate: Time -> string, fmtMoney: Money -> string)
    ensures ReceiptCommands(o.(totalAmount := t), fmtDate, fmtMoney) == ReceiptCommands(o, fmtDate, fmtMoney)
    ensures Line("TOTAL: " + fmtMoney(SumOf(o.items, ItemPrice))) in ReceiptCommands(o, fmtDate, fmtMoney)
  {
    var tl := TotalLines(SumOf(o.items, ItemPrice), fmtMoney);
    assert tl[4] in tl;
  }

  /** The phone line is added after the title exactly when a phone is known. */
  lemma ReceiptPhoneLine(o: OrderRecord, fmtDate: Time -> string, fmtMoney: Money -> string)
    ensures var bare := ReceiptCommands(o.(customerInfo := None), fmtDate, fmtMoney);
      if Present(Phone(o))
      then ReceiptCommands(o, fmtDate, fmtMoney) == bare[..12] + [Line("Phone: " + Phone(o).value)] + bare[12..]
      else ReceiptCommands(o, fmtDate, fmtMoney) == bare
  {
    var o' := o.(customerInfo := None);
    var title := ReceiptTitle(o.orderId, o.createdAt, o.status, fmtDate);
    var items := ReceiptItems(o.items, fmtMoney);
    var foot := ReceiptFooter(SumOf(o.items, ItemPrice), o.paymentInfo, fmtMoney);
    assert PhoneLine(o') == [];
    assert ReceiptHeader(o', fmtDate) == title + ItemsHeading;
    assert ReceiptCommands(o', fmtDate, fmtMoney) == title + ItemsHeading + items + foot;
    SpliceAfter(title, PhoneLine(o), ItemsHeading, items, foot);
  }

  /** The receipt through its TOTAL line. */
  function ReceiptThroughTotal(o: OrderRecord, fmtDate: Time -> string, fmtMoney: Money -> string): seq<Cmd> {
    ReceiptHeader(o, fmtDate) + ReceiptItems(o.items, fmtMoney) + TotalLines(SumOf(o.items, ItemPrice), fmtMoney)
  }

  /**
   * The payment lines sit between TOTAL and the closing lines, and are all
   * that an order's payment information changes on the receipt.
   */
  lemma ReceiptPaymentLines(o: OrderRecord, fmtDate: Time -> string, fmtMoney: Money -> string)
    ensures ReceiptCommands(o, fmtDate, fmtMoney)
      == ReceiptThroughTotal(o, fmtDate, fmtMoney) + PaymentLines(o.paymentInfo, fmtMoney) + ReceiptClosing
    ensures ReceiptCommands(o.(paymentInfo := None), fmtDate, fmtMoney)
      == ReceiptThroughTotal(o, fmtDate, fmtMoney) + ReceiptClosing
  {
    var front := ReceiptHeader(o, fmtDate) + ReceiptItems(o.items, fmtMoney);
    var tl := TotalLines(SumOf(o.items, ItemPrice), fmtMoney);
    var pay := PaymentLines(o.paymentInfo, fmtMoney);
    AppendAssoc(front, tl + pay, ReceiptClosing);
    AppendAssoc(front, tl, pay);
    AppendAssoc(front, tl, ReceiptClosing);
    assert ReceiptHeader(o.(paymentInfo := None), fmtDate) == ReceiptHeader(o, fmtDate);
  }

  /** The customer line closes the kitchen ticket exactly when a phone is known. */
  lemma KitchenCustomerLine(o: OrderRecord, fmtDate: Time -> string)
    ensures var bare := KitchenCommands(o.(customerInfo := None), fmtDate);
      var n := |bare| - 3;
      n >= 0
      && if Present(Phone(o))
         then KitchenCommands(o, fmtDate) == bare[..n] + [Separator, Blank, Line("Customer: " + Phone(o).value)] + bare[n..]
         else KitchenCommands(o, fmtDate) == bare
  {
    var body := KitchenTitle(o.orderId, o.createdAt, fmtDate) + KitchenItems(o.items);
    assert CustomerLines(o.(customerInfo := None)) == [];
    assert KitchenCommands(o.(customerInfo := None), fmtDate) == body + KitchenClosing;
    SpliceBefore(body, [], CustomerLines(o), KitchenClosing);
    assert body + ([] + KitchenClosing) == body + KitchenClosing;
    assert body + CustomerLines(o) + KitchenClosing == body + ([] + CustomerLines(o) + KitchenClosing);
  }

  /** Every item of the order gets its "name xqty" line on the kitchen ticket. */
  lemma {:induction false} KitchenListsItems(items: seq<OrderItem>, i: int)
    requires 0 <= i < |items|
    ensures Line(ItemLine(items[i])) in KitchenItems(items)
  {
    var last := |items| - 1;
    assert KitchenItems(items) == KitchenItems(items[..last]) + KitchenItemBlock(items[last]);
    if i == last {
      assert KitchenItemBlock(items[last])[2] == Line(ItemLine(items[i]));
    } else {
      assert items[..last][i] == items[i];
      KitchenListsItems(items[..last], i);
    }
  }

  // ----- sending -----

  /** What the printer endpoint answers. */
  datatype PrinterReply = Delivered | Refused(status: int, statusText: string) | Unreachable(error: string)

  /**
   * sendToPOSPrinter, as the error it raises (None when it returns). With no
   * endpoint configured the data only goes to the log.
   */
  function SendToPosPrinter(endpoint: Option<string>, reply: PrinterReply): (err: Option<string>)
    ensures !Present(endpoint) ==> err.None?
    ensures Present(endpoint) ==> (err.None? <==> reply.Delivered?)
    ensures Present(endpoint) && reply.Refused? ==>
      err == Some("POS printer request failed: " + IntToString(reply.status) + " " + reply.statusText)
    ensures Present(endpoint) && reply.Unreachable? ==> err == Some(reply.error)
  {
    if !Present(endpoint) then None
    else match reply
      case Delivered => None
      case Refused(status, text) => Some("POS printer request failed: " + IntToString(status) + " " + text)
      case Unreachable(e) => Some(e)
  }
}
