/**
 * The decision logic of the security middleware: role checks, the
 * per-address sliding-window request limit and the HTML-entity escaping of
 * request data.
 */
module Security {
  import opened Wrappers
  import opened JsValues

  // ---------------------------------------------------------------------------
  // checkRole

  /** What a middleware hands to `next`: nothing (carry on) or an error with its HTTP status. */
  datatype Decision = Pass | Reject(status: int)

  /**
   * `checkRole(roles)` applied to a request whose `user` is `user`: no
   * (truthy) user is 401, a role not among `roles` is 403, anything else
   * passes.
   */
  function CheckRole(roles: seq<string>, user: JsValue): (d: Decision)
    ensures d == Reject(401) <==> !Truthy(user)
    ensures d == Reject(403) <==> Truthy(user) && !(Get(user, "role").Str? && Get(user, "role").s in roles)
    ensures d == Pass <==> Truthy(user) && Get(user, "role").Str? && Get(user, "role").s in roles
  {
    if !Truthy(user) then Reject(401)
    else
      var role := Get(user, "role");
      if !(role.Str? && role.s in roles) then Reject(403)
      else Pass
  }

  /** With no roles allowed every signed-in user is refused; a user without a role is refused whatever the list. */
  lemma CheckRoleRefusals(roles: seq<string>, user: JsValue)
    requires Truthy(user)
    ensures CheckRole([], user) == Reject(403)
    ensures Get(user, "role").Undefined? ==> CheckRole(roles, user) == Reject(403)
  {
  }

  // ---------------------------------------------------------------------------
  // rateLimiter

  const WINDOW_MS: int := 15 * 60 * 1000
  const MAX_REQUESTS: int := 100

  /** `times.filter(time => now - time < windowMs)`: the request times still inside the window, in order. */
  function Recent(times: seq<int>, now: int): (r: seq<int>)
    ensures |r| <= |times|
    ensures forall t :: t in r <==> t in times && now - t < WINDOW_MS
    ensures forall t :: multiset(r)[t] == if now - t < WINDOW_MS then multiset(times)[t] else 0
  {
    if times == [] then []
    else
      var last := times[|times| - 1];
      var rest := Recent(times[..|times| - 1], now);
      assert times == times[..|times| - 1] + [last];
      assert multiset(times) == multiset(times[..|times| - 1]) + multiset{last};
      if now - last < WINDOW_MS then rest + [last] else rest
  }

  /** The filter keeps order: filtering a concatenation filters each part and joins them. */
  lemma {:induction false} RecentAppend(a: seq<int>, b: seq<int>, now: int)
    ensures Recent(a + b, now) == Recent(a, now) + Recent(b, now)
  {
    if b == [] {
      assert a + b == a;
    } else {
      var front := b[..|b| - 1];
      RecentAppend(a, front, now);
      assert (a + b)[..|a + b| - 1] == a + front;
      assert b[..|b| - 1] == front;
    }
  }

  /** Filtering twice at the same instant is filtering once. */
  lemma {:induction false} RecentIdempotent(times: seq<int>, now: int)
    ensures Recent(Recent(times, now), now) == Recent(times, now)
  {
    if times != [] {
      var last := times[|times| - 1];
      var front := times[..|times| - 1];
      RecentIdempotent(front, now);
      if now - last < WINDOW_MS {
        var r := Recent(front, now) + [last];
        assert r[..|r| - 1] == Recent(front, now);
      }
    }
  }

  /** The filter as the middleware runs it: one pass over the stored times. */
  method InWindow(times: seq<int>, now: int) returns (valid: seq<int>)
    ensures valid == Recent(times, now)
  {
    valid := [];
    var i := 0;
    while i < |times|
      invariant 0 <= i <= |times|
      invariant valid == Recent(times[..i], now)
    {
      assert times[..i + 1][..i] == times[..i];
      if now - times[i] < WINDOW_MS {
        valid := valid + [times[i]];
      }
      i := i + 1;
    }
    assert times[..i] == times;
  }

  /** The application-wide state the limiter keeps: the table is created on first use. */
  class AppLocals {
    var rateLimit: Option<map<string, seq<int>>>

    constructor ()
      ensures rateLimit == None
    {
      rateLimit := None;
    }

    /** No address ever has more than the allowed number of stored times. */
    predicate Valid()
      reads this
    {
      rateLimit.Some? ==> forall ip :: ip in rateLimit.value ==> |rateLimit.value[ip]| <= MAX_REQUESTS
    }

    function Table(): map<string, seq<int>>
      reads this
    {
      if rateLimit.Some? then rateLimit.value else map[]
    }

    /**
     * `rateLimiter`: the address's stored times are filtered to the window;
     * with 100 or more left the request is refused with 429 and the table
     * keeps what it had, otherwise `now` is appended and stored.
     */
    method RateLimiter(ip: string, now: int) returns (d: Decision)
      requires Valid()
      modifies this
      ensures Valid()
      ensures rateLimit.Some?
      ensures var valid := Recent(if ip in old(Table()) then old(Table())[ip] else [], now);
        && (|valid| >= MAX_REQUESTS ==> d == Reject(429) && Table() == old(Table()))
        && (|valid| < MAX_REQUESTS ==> d == Pass && Table() == old(Table())[ip := valid + [now]])
      ensures forall other :: other != ip ==>
        (other in Table() <==> other in old(Table())) && (other in Table() ==> Table()[other] == old(Table())[other])
    {
      if rateLimit.None? {
        rateLimit := Some(map[]);
      }
      var table := rateLimit.value;
      var userRequests := if ip in table then table[ip] else [];
      var validRequests := InWindow(userRequests, now);
      if |validRequests| >= MAX_REQUESTS {
        return Reject(429);
      }
      validRequests := validRequests + [now];
      rateLimit := Some(table[ip := validRequests]);
      d := Pass;
    }
  }

  // ---------------------------------------------------------------------------
  // sanitize

  /** `s.replace(/c/g, rep)` for a single character `c`. */
  function ReplaceAll(s: string, c: char, rep: string): (r: string)
    ensures c !in rep ==> c !in r
  {
    if s == [] then []
    else (if s[0] == c then rep else [s[0]]) + ReplaceAll(s[1..], c, rep)
  }

  lemma SpecialsAbsent(s: string)
    requires '<' !in s && '>' !in s && '"' !in s && '\'' !in s && '/' !in s
    ensures NoSpecials(s)
  {
    forall i | 0 <= i < |s|
      ensures !IsSpecial(s[i])
    {
      assert s[i] in s;
    }
  }

  /** A character in neither the input nor the replacement is not in the output. */
  lemma {:induction false} ReplaceAllKeepsOut(s: string, c: char, rep: string, x: char)
    requires x !in s && x !in rep
    ensures x !in ReplaceAll(s, c, rep)
  {
    if s != [] {
      ReplaceAllKeepsOut(s[1..], c, rep, x);
    }
  }

  lemma {:induction false} ReplaceAllAppend(a: string, b: string, c: char, rep: string)
    ensures ReplaceAll(a + b, c, rep) == ReplaceAll(a, c, rep) + ReplaceAll(b, c, rep)
  {
    if a == [] {
      assert a + b == b;
    } else {
      assert (a + b)[1..] == a[1..] + b;
      ReplaceAllAppend(a[1..], b, c, rep);
    }
  }

  lemma {:induction false} ReplaceAllAbsent(s: string, c: char, rep: string)
    requires c !in s
    ensures ReplaceAll(s, c, rep) == s
  {
    if s != [] {
      ReplaceAllAbsent(s[1..], c, rep);
    }
  }

  /** The six replacements of the middleware, in its order: `&` first. */
  function EscapeChain(s: string): (r: string)
    ensures NoSpecials(r)
  {
    ChainLeavesNoSpecials(s);
    ReplaceAll(ReplaceAll(ReplaceAll(ReplaceAll(ReplaceAll(ReplaceAll(
      s, '&', "&amp;"), '<', "&lt;"), '>', "&gt;"), '"', "&quot;"), '\'', "&#x27;"), '/', "&#x2F;")
  }

  /** Each step removes its own character and inserts none of the earlier ones. */
  lemma ChainLeavesNoSpecials(s: string)
    ensures NoSpecials(ReplaceAll(ReplaceAll(ReplaceAll(ReplaceAll(ReplaceAll(ReplaceAll(
      s, '&', "&amp;"), '<', "&lt;"), '>', "&gt;"), '"', "&quot;"), '\'', "&#x27;"), '/', "&#x2F;"))
  {
    MarkupStepsRemove(s);
    QuoteStepsRemove(ReplaceAll(ReplaceAll(ReplaceAll(ReplaceAll(s, '&', "&amp;"), '<', "&lt;"), '>', "&gt;"), '"', "&quot;"));
  }

  /** After the first four steps no '<', '>' or '"' is left. */
  lemma MarkupStepsRemove(s: string)
    ensures var q := ReplaceAll(ReplaceAll(ReplaceAll(ReplaceAll(s, '&', "&amp;"), '<', "&lt;"), '>', "&gt;"), '"', "&quot;");
      '<' !in q && '>' !in q && '"' !in q
  {
    var lt := ReplaceAll(ReplaceAll(s, '&', "&amp;"), '<', "&lt;");
    var gt := ReplaceAll(lt, '>', "&gt;");
    ReplaceAllKeepsOut(lt, '>', "&gt;", '<');
    ReplaceAllKeepsOut(gt, '"', "&quot;", '<');
    ReplaceAllKeepsOut(gt, '"', "&quot;", '>');
  }

  /** The last two steps remove '\'' and '/' and bring back none of the others. */
  lemma QuoteStepsRemove(q: string)
    requires '<' !in q && '>' !in q && '"' !in q
    ensures NoSpecials(ReplaceAll(ReplaceAll(q, '\'', "&#x27;"), '/', "&#x2F;"))
  {
    var apos := ReplaceAll(q, '\'', "&#x27;");
    ReplaceAllKeepsOut(q, '\'', "&#x27;", '<');
    ReplaceAllKeepsOut(q, '\'', "&#x27;", '>');
    ReplaceAllKeepsOut(q, '\'', "&#x27;", '"');
    var slash := ReplaceAll(apos, '/', "&#x2F;");
    ReplaceAllKeepsOut(apos, '/', "&#x2F;", '<');
    ReplaceAllKeepsOut(apos, '/', "&#x2F;", '>');
    ReplaceAllKeepsOut(apos, '/', "&#x2F;", '"');
    ReplaceAllKeepsOut(apos, '/', "&#x2F;", '\'');
    SpecialsAbsent(slash);
  }

  /** The entity for each special character. */
  function EscapeChar(c: char): string {
    match c
    case '&' => "&amp;"
    case '<' => "&lt;"
    case '>' => "&gt;"
    case '"' => "&quot;"
    case '\'' => "&#x27;"
    case '/' => "&#x2F;"
    case _ => [c]
  }

  predicate IsSpecial(c: char) {
    c == '<' || c == '>' || c == '"' || c == '\'' || c == '/'
  }

  /** HTML escaping by definition: every character replaced by its entity, all in one pass. */
  function Escape(s: string): (r: string)
    ensures forall i :: 0 <= i < |r| ==> !IsSpecial(r[i])
  {
    if s == [] then [] else EscapeChar(s[0]) + Escape(s[1..])
  }

  lemma EscapeChainAppend(a: string, b: string)
    ensures EscapeChain(a + b) == EscapeChain(a) + EscapeChain(b)
  {
    var s1a, s1b := ReplaceAll(a, '&', "&amp;"), ReplaceAll(b, '&', "&amp;");
    ReplaceAllAppend(a, b, '&', "&amp;");
    var s2a, s2b := ReplaceAll(s1a, '<', "&lt;"), ReplaceAll(s1b, '<', "&lt;");
    ReplaceAllAppend(s1a, s1b, '<', "&lt;");
    var s3a, s3b := ReplaceAll(s2a, '>', "&gt;"), ReplaceAll(s2b, '>', "&gt;");
    ReplaceAllAppend(s2a, s2b, '>', "&gt;");
    var s4a, s4b := ReplaceAll(s3a, '"', "&quot;"), ReplaceAll(s3b, '"', "&quot;");
    ReplaceAllAppend(s3a, s3b, '"', "&quot;");
    var s5a, s5b := ReplaceAll(s4a, '\'', "&#x27;"), ReplaceAll(s4b, '\'', "&#x27;");
    ReplaceAllAppend(s4a, s4b, '\'', "&#x27;");
    ReplaceAllAppend(s5a, s5b, '/', "&#x2F;");
  }

  lemma ReplaceAllSingle(x: char, c: char, rep: string)
    ensures ReplaceAll([x], c, rep) == if x == c then rep else [x]
  {
    assert [x][1..] == [];
    assert ReplaceAll([x][1..], c, rep) == [];
  }

  /** One character through the chain: the entity inserted by one step contains none of the later steps' characters. */
  lemma EscapeChainChar(c: char)
    ensures EscapeChain([c]) == EscapeChar(c)
  {
    ReplaceAllSingle(c, '&', "&amp;");
    var s1 := ReplaceAll([c], '&', "&amp;");
    if c == '&' {
      EntityUnchanged(s1, 1);
    } else {
      ReplaceAllSingle(c, '<', "&lt;");
      var s2 := ReplaceAll(s1, '<', "&lt;");
      if c == '<' {
        EntityUnchanged(s2, 2);
      } else {
        ReplaceAllSingle(c, '>', "&gt;");
        var s3 := ReplaceAll(s2, '>', "&gt;");
        if c == '>' {
          EntityUnchanged(s3, 3);
        } else {
          ReplaceAllSingle(c, '"', "&quot;");
          var s4 := ReplaceAll(s3, '"', "&quot;");
          if c == '"' {
            EntityUnchanged(s4, 4);
          } else {
            ReplaceAllSingle(c, '\'', "&#x27;");
            var s5 := ReplaceAll(s4, '\'', "&#x27;");
            if c == '\'' {
              EntityUnchanged(s5, 5);
            } else {
              ReplaceAllSingle(c, '/', "&#x2F;");
            }
          }
        }
      }
    }
  }

  /** The steps of the chain after the `k`-th, as one function of the text so far. */
  function StepsAfter(s: string, k: nat): string {
    var s2 := if k < 2 then ReplaceAll(s, '<', "&lt;") else s;
    var s3 := if k < 3 then ReplaceAll(s2, '>', "&gt;") else s2;
    var s4 := if k < 4 then ReplaceAll(s3, '"', "&quot;") else s3;
    var s5 := if k < 5 then ReplaceAll(s4, '\'', "&#x27;") else s4;
    ReplaceAll(s5, '/', "&#x2F;")
  }

  /** An entity has only `&`, letters, digits, `#` and `;`: the later steps leave it as it is. */
  lemma EntityUnchanged(e: string, k: nat)
    requires 1 <= k <= 5
    requires forall i :: 0 <= i < |e| ==> e[i] == '&' || e[i] == '#' || e[i] == ';' || 'a' <= e[i] <= 'z' || 'A' <= e[i] <= 'Z' || '0' <= e[i] <= '9'
    ensures StepsAfter(e, k) == e
  {
    ReplaceAllAbsent(e, '<', "&lt;");
    ReplaceAllAbsent(e, '>', "&gt;");
    ReplaceAllAbsent(e, '"', "&quot;");
    ReplaceAllAbsent(e, '\'', "&#x27;");
    ReplaceAllAbsent(e, '/', "&#x2F;");
  }

  /**
   * Because `&` goes first, no entity is escaped again: the chain of six
   * replacements is exactly the one-pass escaping of every character.
   */
  lemma {:induction false} EscapeChainIsEscape(s: string)
    ensures EscapeChain(s) == Escape(s)
  {
    if s == [] {
    } else {
      assert s == [s[0]] + s[1..];
      EscapeChainAppend([s[0]], s[1..]);
      EscapeChainChar(s[0]);
      EscapeChainIsEscape(s[1..]);
    }
  }

  /** With `&` last, the ampersands of the earlier entities would be escaped a second time. */
  lemma AmpersandFirstMatters()
    ensures EscapeChain("<") == "&lt;"
    ensures ReplaceAll(ReplaceAll("<", '<', "&lt;"), '&', "&amp;") == "&amp;" + "lt;"
  {
    EscapeChainChar('<');
    ReplaceAllSingle('<', '<', "&lt;");
    assert "&lt;" == "&" + "lt;";
    ReplaceAllAppend("&", "lt;", '&', "&amp;");
    ReplaceAllSingle('&', '&', "&amp;");
    ReplaceAllAbsent("lt;", '&', "&amp;");
  }

  /** Reading the entities back. */
  function Unescape(s: string): string
    decreases |s|
  {
    if s == [] then []
    else if s[0] != '&' then [s[0]] + Unescape(s[1..])
    else if |s| >= 5 && s[..5] == "&amp;" then "&" + Unescape(s[5..])
    else if |s| >= 4 && s[..4] == "&lt;" then "<" + Unescape(s[4..])
    else if |s| >= 4 && s[..4] == "&gt;" then ">" + Unescape(s[4..])
    else if |s| >= 6 && s[..6] == "&quot;" then "\"" + Unescape(s[6..])
    else if |s| >= 6 && s[..6] == "&#x27;" then "'" + Unescape(s[6..])
    else if |s| >= 6 && s[..6] == "&#x2F;" then "/" + Unescape(s[6..])
    else [s[0]] + Unescape(s[1..])
  }

  lemma UnescapeEntity(e: string, c: char, t: string)
    requires e == EscapeChar(c) && |e| > 1
    ensures Unescape(e + t) == [c] + Unescape(t)
  {
    var s := e + t;
    assert s[..|e|] == e && s[|e|..] == t;
    assert s[0] == e[0] && s[1] == e[1];
    if c == '&' {
      assert s[..5] == e;
    } else if c == '<' || c == '>' {
      assert s[..4] == e;
    } else {
      assert s[4] == e[4];
      assert s[..6] == e;
    }
  }

  lemma UnescapeChar(c: char, t: string)
    ensures Unescape(EscapeChar(c) + t) == [c] + Unescape(t)
  {
    var e := EscapeChar(c);
    if |e| > 1 {
      UnescapeEntity(e, c, t);
    } else {
      var s := e + t;
      assert s[0] == c && s[1..] == t;
    }
  }

  /** Escaping loses nothing: the entities read back to the original text. */
  lemma {:induction false} EscapeRoundTrip(s: string)
    ensures Unescape(Escape(s)) == s
  {
    if s != [] {
      UnescapeChar(s[0], Escape(s[1..]));
      EscapeRoundTrip(s[1..]);
      assert s == [s[0]] + s[1..];
    }
  }

  /** No character an HTML context would read as markup. */
  predicate NoSpecials(s: string) {
    forall i :: 0 <= i < |s| ==> !IsSpecial(s[i])
  }

  /** Every string held anywhere inside an array or object is free of markup characters. */
  predicate NestedSafe(v: JsValue)
    decreases v, 0
  {
    match v
    case Arr(es) => forall i :: 0 <= i < |es| ==> MemberSafe(es[i])
    case Obj(ps) => forall i :: 0 <= i < |ps| ==> MemberSafe(ps[i].1)
    case _ => true
  }

  predicate MemberSafe(m: JsValue)
    decreases m, 1
  {
    match m
    case Str(s) => NoSpecials(s)
    case _ => NestedSafe(m)
  }

  /**
   * `sanitize`: a value that is not an object, and null, comes back as it
   * is; an array or object is rebuilt with the same indices or keys, every
   * member sanitised.
   */
  function Sanitize(v: JsValue): (r: JsValue)
    decreases v, 0
    ensures !v.Arr? && !v.Obj? ==> r == v
    ensures v.Arr? ==> r.Arr? && |r.elems| == |v.elems|
                       && forall i :: 0 <= i < |v.elems| ==> r.elems[i] == SanitizeMember(v.elems[i])
    ensures v.Obj? ==> r.Obj? && KeysOf(r.props) == KeysOf(v.props)
                       && forall i :: 0 <= i < |v.props| ==> r.props[i].1 == SanitizeMember(v.props[i].1)
    ensures NestedSafe(r)
  {
    match v
    case Arr(es) => Arr(seq(|es|, i requires 0 <= i < |es| => SanitizeMember(es[i])))
    case Obj(ps) =>
      var r := Obj(seq(|ps|, i requires 0 <= i < |ps| => (ps[i].0, SanitizeMember(ps[i].1))));
      assert KeysOf(r.props) == KeysOf(ps);
      r
    case _ => v
  }

  /**
   * One member: a string is escaped, an object, array or null is sanitised,
   * and numbers, booleans and undefined are kept.
   */
  function SanitizeMember(m: JsValue): (r: JsValue)
    decreases m, 1
    ensures m.Str? ==> r == Str(Escape(m.s))
    ensures IsObjectType(m) ==> r == Sanitize(m)
    ensures !m.Str? && !IsObjectType(m) ==> r == m
    ensures MemberSafe(r)
  {
    match m
    case Str(s) =>
      EscapeChainIsEscape(s);
      Str(EscapeChain(s))
    case Null => Sanitize(m)
    case Arr(_) => Sanitize(m)
    case Obj(_) => Sanitize(m)
    case _ => m
  }

  /** A request body that is a bare string is not an object, so it is passed through unescaped. */
  lemma BareStringNotEscaped(s: string)
    ensures Sanitize(Str(s)) == Str(s)
  {
  }

  /** Inside an object, the same string is escaped and reads back to the original. */
  lemma SanitizedMemberRoundTrip(key: string, s: string)
    ensures var r := Sanitize(Obj([(key, Str(s))]));
      r.props[0].1.Str? && NoSpecials(r.props[0].1.s) && Unescape(r.props[0].1.s) == s
  {
    EscapeRoundTrip(s);
  }
}
