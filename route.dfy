/** The simulated authorization endpoint `POST /api/transacciones`: an
    ordered chain of validations, then an approval decided by chance, then an
    approved reply that echoes the request
    (src/app/api/transacciones/route.ts). The random draws and the clock are
    parameters. */
module Route {
  import opened Helpers

  /** The request body as the endpoint reads it: the keys it validates, and
      an `id` key that a client may send. */
  datatype Request = Request(
    id: Option<string>,
    monto: Option<int>,
    numeroTarjeta: Option<string>,
    nombreTitular: Option<string>)

  datatype ReplyBody =
    | Message(message: string)
    | Approved(id: string, data: Request, estado: string, fechaProcesamiento: string, codigoAutorizacion: string)

  datatype Reply = Reply(status: int, body: ReplyBody)

  const AmountMsg := "El monto debe ser mayor a cero"
  const CardMsg := "Número de tarjeta inválido"
  const HolderMsg := "El nombre del titular es requerido"
  const RejectedMsg := "Transacción rechazada por el banco emisor"
  const InternalMsg := "Error interno del servidor"
  const MinCardLength := 13
  const CodeWidth := 6

  /** The three checks, in the order the handler runs them. */
  predicate AmountOk(req: Request) { req.monto.Some? && req.monto.value > 0 }
  predicate CardOk(req: Request) { req.numeroTarjeta.Some? && Utf16Length(req.numeroTarjeta.value) >= MinCardLength }
  predicate HolderOk(req: Request) { req.nombreTitular.Some? && req.nombreTitular.value != "" }

  /** `s.length` in JavaScript: the number of UTF-16 code units, so a
      character outside the Basic Multilingual Plane counts twice. */
  function Utf16Length(s: string): (n: nat)
    ensures |s| <= n <= 2 * |s|
    ensures (forall i :: 0 <= i < |s| ==> s[i] as int < 0x1_0000) ==> n == |s|
    ensures |s| == 1 ==> n == (if s[0] as int < 0x1_0000 then 1 else 2)
  {
    if s == [] then 0 else (if s[0] as int < 0x1_0000 then 1 else 2) + Utf16Length(s[1..])
  }

  /** The length of a concatenation is the sum of the lengths: with the
      one-character case above, every character counts on its own, one unit
      inside the Basic Multilingual Plane and two outside it. */
  lemma {:induction false} Utf16LengthAppend(a: string, b: string)
    ensures Utf16Length(a + b) == Utf16Length(a) + Utf16Length(b)
  {
    if a == [] {
      assert a + b == b;
    } else {
      assert (a + b)[0] == a[0] && (a + b)[1..] == a[1..] + b;
      Utf16LengthAppend(a[1..], b);
    }
  }

  // ---------------------------------------------------------------------------
  // Decimal strings
  // ---------------------------------------------------------------------------

  function DigitChar(d: nat): char
    requires d < 10
  {
    "0123456789"[d]
  }

  /** `n.toString()` for a non-negative integer: its shortest decimal form. */
  function NatToString(n: nat): (s: string)
    ensures AllDigits(s) && |s| >= 1
    ensures DecimalValue(s) == n
    ensures |s| > 1 ==> s[0] != '0'
  {
    if n < 10 then [DigitChar(n)]
    else
      var s := NatToString(n / 10) + [DigitChar(n % 10)];
      assert s[..|s| - 1] == NatToString(n / 10);
      s
  }

  /** `s.padStart(width, '0')` */
  function PadStart(s: string, width: nat): (r: string)
  {
    if |s| >= width then s else seq(width - |s|, _ => '0') + s
  }

  lemma {:induction false} NatToStringLength(n: nat, k: nat)
    requires k >= 1 && n < Pow10(k)
    ensures |NatToString(n)| <= k
  {
    if n >= 10 {
      assert k >= 2 && n / 10 < Pow10(k - 1);
      NatToStringLength(n / 10, k - 1);
    }
  }

  lemma {:induction false} LeadingZeros(z: nat, s: string)
    requires AllDigits(s)
    ensures AllDigits(seq(z, _ => '0') + s)
    ensures DecimalValue(seq(z, _ => '0') + s) == DecimalValue(s)
    decreases |s|
  {
    var t := seq(z, _ => '0') + s;
    if s == [] {
      assert t == seq(z, _ => '0');
      ZerosValue(z);
    } else {
      assert t[..|t| - 1] == seq(z, _ => '0') + s[..|s| - 1];
      LeadingZeros(z, s[..|s| - 1]);
    }
  }

  /** `Math.floor(Math.random() * 1000000).toString().padStart(6, '0')` for
      a draw `draw` in [0, 999999]: always exactly six digits, denoting the
      number drawn. */
  function AuthorizationCode(draw: nat): (c: string)
    requires draw < 1000000
    ensures |c| == CodeWidth && AllDigits(c) && DecimalValue(c) == draw
  {
    var s := NatToString(draw);
    assert |s| <= CodeWidth by {
      assert Pow10(6) == 1000000;
      NatToStringLength(draw, 6);
    }
    if |s| < CodeWidth then
      LeadingZeros(CodeWidth - |s|, s);
      PadStart(s, CodeWidth)
    else PadStart(s, CodeWidth)
  }

  // ---------------------------------------------------------------------------
  // The handler
  // ---------------------------------------------------------------------------

  /** `POST(request)`. `body` is `None` when reading the request as a JSON
      object throws; `approved` is the draw `Math.random() <= 0.9`; `nowMillis`
      and `nowIso` are the clock; `draw` is the authorization-code draw.
      The first check that fails decides the 400 reply; a request that passes
      all three is refused only on a failed draw; any exception gives 500. */
  function Post(body: Option<Request>, approved: bool, nowMillis: nat, nowIso: string, draw: nat): (r: Reply)
    requires draw < 1000000
    ensures r.status == 200 <==> body.Some? && AmountOk(body.value) && CardOk(body.value) && HolderOk(body.value) && approved
    ensures r.status == 500 <==> body.None?
    ensures r.status == 500 ==> r.body == Message(InternalMsg)
    ensures body.Some? && r.status != 200 ==> r.status == 400 && r.body.Message?
    ensures body.Some? ==> var req := body.value;
      && (r.body == Message(AmountMsg) <==> !AmountOk(req))
      && (r.body == Message(CardMsg) <==> AmountOk(req) && !CardOk(req))
      && (r.body == Message(HolderMsg) <==> AmountOk(req) && CardOk(req) && !HolderOk(req))
      && (r.body == Message(RejectedMsg) <==> AmountOk(req) && CardOk(req) && HolderOk(req) && !approved)
    ensures r.status == 200 ==>
      && r.body.Approved?
      && r.body.data == body.value
      && r.body.estado == "APROBADO"
      && r.body.fechaProcesamiento == nowIso
      && |r.body.codigoAutorizacion| == CodeWidth && AllDigits(r.body.codigoAutorizacion)
      && DecimalValue(r.body.codigoAutorizacion) == draw
      && (body.value.id.None? ==> IsPrefix("TX-", r.body.id))
      && (body.value.id.Some? ==> r.body.id == body.value.id.value)
  {
    if body.None? then Reply(500, Message(InternalMsg))
    else
      var data := body.value;
      if data.monto.None? || data.monto.value <= 0 then Reply(400, Message(AmountMsg))
      else if data.numeroTarjeta.None? || Utf16Length(data.numeroTarjeta.value) < MinCardLength then Reply(400, Message(CardMsg))
      else if data.nombreTitular.None? || data.nombreTitular.value == "" then Reply(400, Message(HolderMsg))
      else if !approved then Reply(400, Message(RejectedMsg))
      else
        // `{ id: ..., ...data, ... }`: an `id` in the request replaces the generated one.
        var id := if data.id.Some? then data.id.value else "TX-" + NatToString(nowMillis);
        Reply(200, Approved(id, data, "APROBADO", nowIso, AuthorizationCode(draw)))
  }

  /** Once a check fails, the later checks, the draws and the clock no longer
      matter: two requests that agree up to the first failing check get the
      same reply. */
  lemma FirstFailureDecides(a: Request, b: Request, approvedA: bool, approvedB: bool,
                            now: nat, iso: string, drawA: nat, drawB: nat)
    requires drawA < 1000000 && drawB < 1000000
    requires a.monto == b.monto
    requires AmountOk(a) ==> a.numeroTarjeta == b.numeroTarjeta
    requires AmountOk(a) && CardOk(a) ==> a.nombreTitular == b.nombreTitular
    requires !(AmountOk(a) && CardOk(a) && HolderOk(a))
    ensures Post(Some(a), approvedA, now, iso, drawA) == Post(Some(b), approvedB, now, iso, drawB)
  {
  }
}
