/**
 * The admin page: Basic authentication of the `Authorization` header, the
 * order status counters and the per-order status, route and weight/volume
 * texts the page shows. The HTML around them is not modelled.
 */
module Admin {
  import opened Wrappers
  import opened Models
  import opened Http

  // ---------------------------------------------------------------------
  // Python string primitives used by `check_auth`

  /** The characters Python's `str.isspace` accepts, which `str.split()` splits on. */
  predicate IsSpace(c: char) {
    var n := c as int;
    || 0x09 <= n <= 0x0D
    || 0x1C <= n <= 0x20
    || n == 0x85 || n == 0xA0 || n == 0x1680
    || 0x2000 <= n <= 0x200A
    || n == 0x2028 || n == 0x2029 || n == 0x202F || n == 0x205F || n == 0x3000
  }

  predicate IsWord(w: string) {
    w != [] && forall i :: 0 <= i < |w| ==> !IsSpace(w[i])
  }

  /** `str.split()` with the current, not yet finished word `word`. */
  function SplitWords(s: string, word: string): (r: seq<string>)
    requires forall i :: 0 <= i < |word| ==> !IsSpace(word[i])
    ensures forall k :: 0 <= k < |r| ==> IsWord(r[k])
    decreases |s|
  {
    if s == [] then
      (if word == [] then [] else [word])
    else if IsSpace(s[0]) then
      (if word == [] then SplitWords(s[1..], []) else [word] + SplitWords(s[1..], []))
    else
      SplitWords(s[1..], word + [s[0]])
  }

  /** `s.split()`: the maximal runs of non-whitespace characters, in order. */
  function SplitWhitespace(s: string): (r: seq<string>)
    ensures forall k :: 0 <= k < |r| ==> IsWord(r[k])
  {
    SplitWords(s, [])
  }

  function Occurrences(s: string, c: char): nat {
    if s == [] then 0 else (if s[0] == c then 1 else 0) + Occurrences(s[1..], c)
  }

  /** `s.split(c)`: the pieces between the separators, one more than there are separators. */
  function SplitOn(s: string, c: char): (parts: seq<string>)
    ensures |parts| == Occurrences(s, c) + 1
    ensures forall k :: 0 <= k < |parts| ==> c !in parts[k]
  {
    if s == [] then [""]
    else
      var rest := SplitOn(s[1..], c);
      if s[0] == c then [""] + rest else [[s[0]] + rest[0]] + rest[1..]
  }

  /** `c.join(parts)`. */
  function Join(parts: seq<string>, c: char): string
    requires |parts| >= 1
  {
    if |parts| == 1 then parts[0] else parts[0] + [c] + Join(parts[1..], c)
  }

  /** `str.lower()` on ASCII letters. */
  function LowerAscii(s: string): (r: string)
    ensures |r| == |s|
    ensures forall i :: 0 <= i < |s| ==>
      r[i] == if 'A' <= s[i] <= 'Z' then (s[i] as int + 32) as char else s[i]
  {
    if s == [] then []
    else [if 'A' <= s[0] <= 'Z' then (s[0] as int + 32) as char else s[0]] + LowerAscii(s[1..])
  }

  lemma {:induction false} SplitOnJoin(s: string, c: char)
    ensures Join(SplitOn(s, c), c) == s
  {
    if s != [] {
      var rest := SplitOn(s[1..], c);
      SplitOnJoin(s[1..], c);
      if s[0] == c {
        assert SplitOn(s, c)[1..] == rest;
      } else {
        var parts := SplitOn(s, c);
        assert parts[1..] == rest[1..];
        if |rest| > 1 {
          assert Join(rest, c) == rest[0] + [c] + Join(rest[1..], c);
        }
      }
    }
  }

  lemma {:induction false} SplitOnWithoutSeparator(s: string, c: char)
    requires c !in s
    ensures SplitOn(s, c) == [s]
  {
    if s != [] {
      SplitOnWithoutSeparator(s[1..], c);
      assert [s[0]] + s[1..] == s;
    }
  }

  lemma {:induction false} SplitOnOneSeparator(a: string, b: string, c: char)
    requires c !in a && c !in b
    ensures SplitOn(a + [c] + b, c) == [a, b]
  {
    var s := a + [c] + b;
    if a == [] {
      assert s[1..] == b;
      SplitOnWithoutSeparator(b, c);
    } else {
      assert s[1..] == a[1..] + [c] + b;
      SplitOnOneSeparator(a[1..], b, c);
      assert [a[0]] + a[1..] == a;
    }
  }

  /** `user:password` splits into exactly those two parts iff the password has no ':'. */
  lemma CredentialsSplit(decoded: string, user: string, password: string)
    requires ':' !in user
    ensures SplitOn(decoded, ':') == [user, password] <==> decoded == user + ":" + password && ':' !in password
  {
    if SplitOn(decoded, ':') == [user, password] {
      SplitOnJoin(decoded, ':');
      assert Join([user, password], ':') == user + [':'] + password;
    }
    if decoded == user + ":" + password && ':' !in password {
      SplitOnOneSeparator(user, password, ':');
    }
  }

  lemma {:induction false} SplitWordsAcrossWord(w: string, rest: string, word: string)
    requires forall i :: 0 <= i < |word| ==> !IsSpace(word[i])
    requires forall i :: 0 <= i < |w| ==> !IsSpace(w[i])
    ensures SplitWords(w + rest, word) == SplitWords(rest, word + w)
    decreases |w|
  {
    if w == [] {
      assert w + rest == rest && word + w == word;
    } else {
      assert (w + rest)[0] == w[0] && (w + rest)[1..] == w[1..] + rest;
      assert word + [w[0]] + w[1..] == word + w;
      SplitWordsAcrossWord(w[1..], rest, word + [w[0]]);
    }
  }

  /** Two words separated by one space split into exactly those two words. */
  lemma SplitTwoWords(a: string, b: string)
    requires IsWord(a) && IsWord(b)
    ensures SplitWhitespace(a + " " + b) == [a, b]
  {
    SplitWordsAcrossWord(a, " " + b, []);
    assert a + " " + b == a + (" " + b);
    assert [] + a == a;
    assert (" " + b)[1..] == b;
    SplitWordsAcrossWord(b, [], []);
    assert b + [] == b;
    assert [] + b == b;
  }

  predicate AllSpace(g: string) {
    forall i :: 0 <= i < |g| ==> IsSpace(g[i])
  }

  /** `gaps[0] + words[0] + gaps[1] + ... + words[m - 1] + gaps[m]`. */
  function Interleave(gaps: seq<string>, words: seq<string>): string
    requires |gaps| == |words| + 1
    decreases |words|
  {
    if words == [] then gaps[0] else gaps[0] + words[0] + Interleave(gaps[1..], words[1..])
  }

  /**
   * `gaps` are runs of whitespace around `words`: the outer two may be
   * empty, each one between two words is not.
   */
  predicate SeparatesWords(gaps: seq<string>, words: seq<string>) {
    && |gaps| == |words| + 1
    && (forall k :: 0 <= k < |gaps| ==> AllSpace(gaps[k]))
    && (forall k :: 1 <= k < |gaps| - 1 ==> gaps[k] != [])
    && (forall k :: 0 <= k < |words| ==> IsWord(words[k]))
  }

  /** Widening the first gap by a whitespace character widens the text in front and keeps the layout. */
  lemma WidenFirstGap(c: char, gaps: seq<string>, words: seq<string>)
    requires IsSpace(c) && SeparatesWords(gaps, words)
    ensures var widened := [[c] + gaps[0]] + gaps[1..];
      && SeparatesWords(widened, words) && widened[0] != []
      && Interleave(widened, words) == [c] + Interleave(gaps, words)
  {
    var widened := [[c] + gaps[0]] + gaps[1..];
    assert widened[1..] == gaps[1..];
    assert AllSpace(widened[0]);
    assert forall k :: 1 <= k < |widened| ==> widened[k] == gaps[k];
  }

  /** A finished word in front of a layout whose first gap is not empty. */
  lemma EmitWord(word: string, gaps: seq<string>, words: seq<string>)
    requires IsWord(word) && SeparatesWords(gaps, words) && gaps[0] != []
    ensures SeparatesWords([[]] + gaps, [word] + words)
    ensures Interleave([[]] + gaps, [word] + words) == word + Interleave(gaps, words)
  {
    var gaps', words' := [[]] + gaps, [word] + words;
    assert gaps'[1..] == gaps && words'[1..] == words;
    assert forall k :: 1 <= k < |gaps'| ==> gaps'[k] == gaps[k - 1];
    assert forall k :: 1 <= k < |words'| ==> words'[k] == words[k - 1];
  }

  /** The pending word is emitted when the rest is empty or starts with whitespace. */
  lemma SplitWordsFlush(t: string, word: string)
    requires forall i :: 0 <= i < |word| ==> !IsSpace(word[i])
    requires t == [] || IsSpace(t[0])
    ensures SplitWords(t, word) == (if word == [] then [] else [word]) + SplitWords(t, [])
  {
  }

  lemma {:induction false} SplitWordsSkipsSpace(g: string, rest: string)
    requires AllSpace(g)
    ensures SplitWords(g + rest, []) == SplitWords(rest, [])
    decreases |g|
  {
    if g == [] {
      assert g + rest == rest;
    } else {
      assert (g + rest)[0] == g[0] && IsSpace(g[0]);
      assert (g + rest)[1..] == g[1..] + rest;
      SplitWordsSkipsSpace(g[1..], rest);
    }
  }

  /** The split with pending `word` lays `word + s` out as whitespace gaps around the tokens. */
  lemma {:induction false} SplitWordsDecomposes(s: string, word: string) returns (gaps: seq<string>)
    requires forall i :: 0 <= i < |word| ==> !IsSpace(word[i])
    ensures SeparatesWords(gaps, SplitWords(s, word))
    ensures Interleave(gaps, SplitWords(s, word)) == word + s
    ensures word != [] ==> gaps[0] == []
    decreases |s|
  {
    var r := SplitWords(s, word);
    if s == [] {
      if word == [] {
        gaps := [[]];
      } else {
        gaps := [[], []];
        assert Interleave(gaps, r) == [] + word + Interleave([[]], []);
      }
    } else if IsSpace(s[0]) {
      var gs := SplitWordsDecomposes(s[1..], []);
      var rs := SplitWords(s[1..], []);
      WidenFirstGap(s[0], gs, rs);
      var widened := [[s[0]] + gs[0]] + gs[1..];
      assert [s[0]] + s[1..] == s;
      if word == [] {
        gaps := widened;
      } else {
        assert r == [word] + rs;
        EmitWord(word, widened, rs);
        gaps := [[]] + widened;
      }
    } else {
      gaps := SplitWordsDecomposes(s[1..], word + [s[0]]);
      assert word + [s[0]] + s[1..] == word + s;
    }
  }

  /** Every text is its tokens with whitespace around them; the tokens between two gaps are words. */
  lemma SplitWhitespaceDecomposes(s: string) returns (gaps: seq<string>)
    ensures SeparatesWords(gaps, SplitWhitespace(s))
    ensures Interleave(gaps, SplitWhitespace(s)) == s
  {
    gaps := SplitWordsDecomposes(s, []);
    assert [] + s == s;
  }

  /** Past the first word, the rest of the layout is a layout, and its text starts with whitespace or is empty. */
  lemma SeparatesWordsTail(gaps: seq<string>, words: seq<string>)
    requires SeparatesWords(gaps, words) && words != []
    ensures SeparatesWords(gaps[1..], words[1..])
    ensures var t := Interleave(gaps[1..], words[1..]); t == [] || IsSpace(t[0])
  {
    forall k | 1 <= k < |gaps[1..]| - 1
      ensures gaps[1..][k] != []
    {
      assert gaps[1..][k] == gaps[k + 1];
    }
    var t := Interleave(gaps[1..], words[1..]);
    if words[1..] != [] {
      assert t == gaps[1] + (words[1] + Interleave(gaps[2..], words[2..]));
      assert gaps[1] != [] && IsSpace(gaps[1][0]);
      assert t[0] == gaps[1][0];
    } else {
      assert t == gaps[1];
      assert AllSpace(gaps[1]);
    }
  }

  /** Conversely, words separated by whitespace split into exactly those words: the split is unique. */
  lemma {:induction false} SplitWhitespaceOfInterleave(gaps: seq<string>, words: seq<string>)
    requires SeparatesWords(gaps, words)
    ensures SplitWhitespace(Interleave(gaps, words)) == words
    decreases |words|
  {
    if words == [] {
      SplitWordsSkipsSpace(gaps[0], []);
      assert gaps[0] + [] == gaps[0];
    } else {
      var t := Interleave(gaps[1..], words[1..]);
      assert Interleave(gaps, words) == gaps[0] + (words[0] + t);
      SplitWordsSkipsSpace(gaps[0], words[0] + t);
      SplitWordsAcrossWord(words[0], t, []);
      assert [] + words[0] == words[0];
      SeparatesWordsTail(gaps, words);
      SplitWhitespaceOfInterleave(gaps[1..], words[1..]);
      SplitWordsFlush(t, words[0]);
    }
  }

  // ---------------------------------------------------------------------
  // check_auth

  const AdminUser: string := "admin"

  /**
   * `check_auth(authorization)`: whether the header carries Basic
   * credentials for the admin user with the configured password.
   * `decode` is base64 decoding followed by UTF-8 decoding, `None` where
   * either fails; every failure and every exception yields `false`.
   */
  function CheckAuth(authorization: Option<string>, decode: string -> Option<string>, adminPassword: string): (ok: bool)
    ensures authorization == None || authorization == Some("") ==> !ok
  {
    match authorization
    case None => false
    case Some(header) =>
      if header == "" then false
      else
        var words := SplitWhitespace(header);
        if |words| != 2 then false
        else if LowerAscii(words[0]) != "basic" then false
        else
          match decode(words[1])
          case None => false
          case Some(decoded) =>
            var parts := SplitOn(decoded, ':');
            if |parts| != 2 then false
            else parts[0] == AdminUser && parts[1] == adminPassword
  }

  /**
   * The header is accepted exactly when it is two whitespace-separated
   * words, the first `basic` in any case, the second decoding to
   * `admin:<password>`, and the password has no ':'.
   */
  lemma CheckAuthCharacterisation(authorization: Option<string>, decode: string -> Option<string>, adminPassword: string)
    ensures CheckAuth(authorization, decode, adminPassword) <==>
      && authorization.Some?
      && |SplitWhitespace(authorization.value)| == 2
      && LowerAscii(SplitWhitespace(authorization.value)[0]) == "basic"
      && decode(SplitWhitespace(authorization.value)[1]) == Some(AdminUser + ":" + adminPassword)
      && ':' !in adminPassword
  {
    if authorization.Some? {
      var words := SplitWhitespace(authorization.value);
      if |words| == 2 && decode(words[1]).Some? {
        CredentialsSplit(decode(words[1]).value, AdminUser, adminPassword);
      }
    }
  }

  /** A configured password containing ':' can never be entered. */
  lemma ColonPasswordNeverAuthenticates(authorization: Option<string>, decode: string -> Option<string>, adminPassword: string)
    requires ':' in adminPassword
    ensures !CheckAuth(authorization, decode, adminPassword)
  {
    CheckAuthCharacterisation(authorization, decode, adminPassword);
  }

  /** `Basic <token>`, with the token decoding to `admin:<password>`, is accepted. */
  lemma BasicCredentialsAccepted(token: string, decode: string -> Option<string>, adminPassword: string)
    requires IsWord(token)
    requires decode(token) == Some(AdminUser + ":" + adminPassword)
    requires ':' !in adminPassword
    ensures CheckAuth(Some("Basic " + token), decode, adminPassword)
  {
    SplitTwoWords("Basic", token);
    assert "Basic" + " " + token == "Basic " + token;
    CheckAuthCharacterisation(Some("Basic " + token), decode, adminPassword);
  }

  // ---------------------------------------------------------------------
  // admin_dashboard

  /** The texts one row of the orders table shows. */
  datatype OrderRow = OrderRow(
    id: Id,
    statusClass: string,
    statusText: string,
    routeText: string,
    weightVolume: string)

  datatype AdminPage =
    | Unauthorized(status: int, wwwAuthenticate: string)
    | Listing(total: nat, newCount: nat, inProgress: nat, completed: nat, rows: seq<OrderRow>)
    | ServerError(status: int)

  const Challenge: string := "Basic realm=\"Admin Panel\""

  /** `sum(1 for o in orders if o.status == status)`; a NULL status equals no member. */
  function CountOrders(orders: seq<Order>, status: OrderStatus): (n: nat)
    ensures n <= |orders|
    ensures n == 0 <==> forall i :: 0 <= i < |orders| ==> orders[i].status != Some(status)
  {
    if orders == [] then 0
    else
      var last := orders[|orders| - 1];
      var n := CountOrders(orders[..|orders| - 1], status) + (if last.status == Some(status) then 1 else 0);
      assert forall i :: 0 <= i < |orders| - 1 ==> orders[..|orders| - 1][i] == orders[i];
      n
  }

  /** The orders whose status is NULL, which none of the counters sees. */
  function CountNullOrders(orders: seq<Order>): nat {
    if orders == [] then 0
    else CountNullOrders(orders[..|orders| - 1]) + (if orders[|orders| - 1].status.None? then 1 else 0)
  }

  lemma {:induction false} NullOrdersAbsent(orders: seq<Order>)
    ensures CountNullOrders(orders) == 0 <==> forall i :: 0 <= i < |orders| ==> orders[i].status.Some?
  {
    if orders != [] {
      var init := orders[..|orders| - 1];
      NullOrdersAbsent(init);
      assert forall i :: 0 <= i < |init| ==> init[i] == orders[i];
    }
  }

  /**
   * The four counters and the NULL-status orders together make up the total;
   * without a NULL status the four counters alone do.
   */
  lemma {:induction false} StatusCountsPartition(orders: seq<Order>)
    ensures CountOrders(orders, New) + CountOrders(orders, InProgress)
      + CountOrders(orders, Completed) + CountOrders(orders, Cancelled) + CountNullOrders(orders) == |orders|
    ensures (forall i :: 0 <= i < |orders| ==> orders[i].status.Some?) ==>
      CountOrders(orders, New) + CountOrders(orders, InProgress)
      + CountOrders(orders, Completed) + CountOrders(orders, Cancelled) == |orders|
  {
    if orders != [] {
      var init, last := orders[..|orders| - 1], orders[|orders| - 1];
      StatusCountsPartition(init);
      assert CountOrders(orders, New) == CountOrders(init, New) + (if last.status == Some(New) then 1 else 0);
      assert CountOrders(orders, InProgress) == CountOrders(init, InProgress) + (if last.status == Some(InProgress) then 1 else 0);
      assert CountOrders(orders, Completed) == CountOrders(init, Completed) + (if last.status == Some(Completed) then 1 else 0);
      assert CountOrders(orders, Cancelled) == CountOrders(init, Cancelled) + (if last.status == Some(Cancelled) then 1 else 0);
      assert CountNullOrders(orders) == CountNullOrders(init) + (if last.status.None? then 1 else 0);
      assert (if last.status == Some(New) then 1 else 0) + (if last.status == Some(InProgress) then 1 else 0)
        + (if last.status == Some(Completed) then 1 else 0) + (if last.status == Some(Cancelled) then 1 else 0)
        + (if last.status.None? then 1 else 0) == 1 by {
        match last.status
        case None =>
        case Some(st) =>
          match st
          case New =>
          case InProgress =>
          case Completed =>
          case Cancelled =>
      }
    }
    NullOrdersAbsent(orders);
  }

  /** The status label, falling back to the raw value for an unknown one. */
  function StatusText(value: string): string {
    if value == "new" then "Новая"
    else if value == "in_progress" then "В работе"
    else if value == "completed" then "Завершена"
    else if value == "cancelled" then "Отменена"
    else value
  }

  /** The route label, falling back to the raw value for an unknown one. */
  function RouteText(value: string): string {
    if value == "uae_to_rf" then "🇦🇪 ОАЭ → РФ"
    else if value == "turkey_to_rf" then "🇹🇷 Турция → РФ"
    else value
  }

  /** Every stored status and route has its own label; the fallback is only for other values. */
  lemma LabelsCoverEnums(s: OrderStatus, r: Route, other: string)
    requires other !in {"new", "in_progress", "completed", "cancelled", "uae_to_rf", "turkey_to_rf"}
    ensures StatusText(OrderStatusValue(s)) != OrderStatusValue(s)
    ensures RouteText(RouteValue(r)) != RouteValue(r)
    ensures StatusText(other) == other && RouteText(other) == other
  {
  }

  /** Python truthiness of an optional float: `None` and `0.0` are false. */
  predicate Truthy(x: Option<real>) {
    x.Some? && x.value != 0.0
  }

  function WeightPart(w: real, show: real -> string): string {
    show(w) + " кг"
  }

  function VolumePart(v: real, show: real -> string): string {
    show(v) + " м³"
  }

  /**
   * The weight/volume cell by cases: the truthy ones of weight and volume
   * joined with " / ", or "-" when neither is. `show` is Python's float
   * formatting.
   */
  function WeightVolumeText(weight: Option<real>, volume: Option<real>, show: real -> string): string {
    if Truthy(weight) && Truthy(volume) then WeightPart(weight.value, show) + " / " + VolumePart(volume.value, show)
    else if Truthy(weight) then WeightPart(weight.value, show)
    else if Truthy(volume) then VolumePart(volume.value, show)
    else "-"
  }

  /** `" / ".join(parts)`. */
  function JoinSlash(parts: seq<string>): string {
    if parts == [] then "" else if |parts| == 1 then parts[0] else parts[0] + " / " + JoinSlash(parts[1..])
  }

  /** The cell built as the page builds it: a list appended to, then joined. */
  method FormatWeightVolume(weight: Option<real>, volume: Option<real>, show: real -> string) returns (text: string)
    ensures text == WeightVolumeText(weight, volume, show)
  {
    var weightVol: seq<string> := [];
    if Truthy(weight) {
      weightVol := weightVol + [WeightPart(weight.value, show)];
    }
    if Truthy(volume) {
      weightVol := weightVol + [VolumePart(volume.value, show)];
    }
    assert weightVol == (if Truthy(weight) then [WeightPart(weight.value, show)] else [])
      + (if Truthy(volume) then [VolumePart(volume.value, show)] else []);
    if weightVol != [] {
      text := JoinSlash(weightVol);
      if |weightVol| == 2 {
        assert weightVol[1..] == [weightVol[1]];
        assert JoinSlash(weightVol[1..]) == weightVol[1];
        assert text == weightVol[0] + " / " + weightVol[1];
      }
    } else {
      text := "-";
    }
  }

  /** The cell is "-" exactly when neither weight nor volume is truthy; a zero weight is not shown. */
  lemma WeightVolumeDash(weight: Option<real>, volume: Option<real>, show: real -> string)
    ensures WeightVolumeText(weight, volume, show) == "-" <==> !Truthy(weight) && !Truthy(volume)
    ensures WeightVolumeText(Some(0.0), volume, show) == WeightVolumeText(None, volume, show)
  {
    if Truthy(weight) || Truthy(volume) {
      var t := WeightVolumeText(weight, volume, show);
      if Truthy(volume) {
        assert t[|t| - 1] == '³';
      } else {
        assert t[|t| - 1] == 'г';
      }
    }
  }

  function RowOf(o: Order, show: real -> string): OrderRow
    requires o.status.Some?
  {
    OrderRow(
      o.id,
      "status-" + OrderStatusValue(o.status.value),
      StatusText(OrderStatusValue(o.status.value)),
      RouteText(RouteValue(o.route)),
      WeightVolumeText(o.cargoWeight, o.cargoVolume, show))
  }

  /**
   * The loop over the orders that renders the table rows, stopping with
   * `None` at the first order whose NULL status makes `order.status.value`
   * raise.
   */
  method RenderRows(orders: seq<Order>, show: real -> string) returns (rows: Option<seq<OrderRow>>)
    ensures rows.None? <==> exists i :: 0 <= i < |orders| && orders[i].status.None?
    ensures rows.Some? ==>
      && |rows.value| == |orders|
      && forall i :: 0 <= i < |orders| ==> orders[i].status.Some? && rows.value[i] == RowOf(orders[i], show)
  {
    var done: seq<OrderRow> := [];
    for k := 0 to |orders|
      invariant |done| == k
      invariant forall i :: 0 <= i < k ==> orders[i].status.Some? && done[i] == RowOf(orders[i], show)
    {
      var order := orders[k];
      if order.status.None? {
        return None;
      }
      var statusClass := "status-" + OrderStatusValue(order.status.value);
      var statusText := StatusText(OrderStatusValue(order.status.value));
      var routeText := RouteText(RouteValue(order.route));
      var weightVolText := FormatWeightVolume(order.cargoWeight, order.cargoVolume, show);
      done := done + [OrderRow(order.id, statusClass, statusText, routeText, weightVolText)];
    }
    rows := Some(done);
  }

  /**
   * `admin_dashboard`: a 401 with the Basic challenge unless the header
   * authenticates; otherwise the four counters and one row per order, in
   * the order given (newest first, as the query sorts them). An order with
   * a NULL status makes the page answer 500.
   */
  method AdminDashboard(authorization: Option<string>, decode: string -> Option<string>, adminPassword: string,
                        orders: seq<Order>, show: real -> string) returns (page: AdminPage)
    ensures page.Unauthorized? <==> !CheckAuth(authorization, decode, adminPassword)
    ensures page.Unauthorized? ==> page == Unauthorized(401, Challenge)
    ensures page.ServerError? <==>
      CheckAuth(authorization, decode, adminPassword) && exists i :: 0 <= i < |orders| && orders[i].status.None?
    ensures page.ServerError? ==> page == ServerError(StatusCode(InternalServerError))
    ensures page.Listing? ==>
      && page.total == |orders|
      && page.newCount == CountOrders(orders, New)
      && page.inProgress == CountOrders(orders, InProgress)
      && page.completed == CountOrders(orders, Completed)
      && |page.rows| == |orders|
      && forall i :: 0 <= i < |orders| ==> orders[i].status.Some? && page.rows[i] == RowOf(orders[i], show)
  {
    if !CheckAuth(authorization, decode, adminPassword) {
      return Unauthorized(401, Challenge);
    }
    var total := |orders|;
    var newCount := CountOrders(orders, New);
    var inProgress := CountOrders(orders, InProgress);
    var completed := CountOrders(orders, Completed);
    var rows := RenderRows(orders, show);
    if rows.None? {
      return ServerError(StatusCode(InternalServerError));
    }
    page := Listing(total, newCount, inProgress, completed, rows.value);
  }
}
