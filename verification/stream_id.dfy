/** Caller identity carried in the SRT Stream ID, and the key under which a
    handshake is remembered between authorisation and accept. */
module StreamID {
  import opened Wrappers
  import opened Text

  const ACCESS_CONTROL: string := "#!::"

  predicate IsHex(c: char) {
    '0' <= c <= '9' || 'a' <= c <= 'f' || 'A' <= c <= 'F'
  }

  function Unhex(c: char): (n: nat)
    requires IsHex(c)
    ensures n < 16
  {
    if '0' <= c <= '9' then c as int - '0' as int
    else if 'a' <= c <= 'f' then c as int - 'a' as int + 10
    else c as int - 'A' as int + 10
  }

  /** url.QueryUnescape. */
  function QueryUnescape(s: string): Option<string> {
    if s == [] then Some([])
    else if s[0] == '%' then
      if |s| < 3 || !IsHex(s[1]) || !IsHex(s[2]) then None
      else match QueryUnescape(s[3..])
           case None => None
           case Some(rest) => Some([(16 * Unhex(s[1]) + Unhex(s[2])) as char] + rest)
    else match QueryUnescape(s[1..])
         case None => None
         case Some(rest) => Some([if s[0] == '+' then ' ' else s[0]] + rest)
  }

  /** The first u= field decides; a field without '=' or with another key is skipped. */
  function ClientFromFields(fields: seq<string>): Result<string> {
    if fields == [] then Err("Stream ID must include u=<client-id>")
    else if !("u=" <= fields[0]) then ClientFromFields(fields[1..])
    else match QueryUnescape(fields[0][2..])
         case None => Err("invalid client ID in Stream ID")
         case Some(id) => if id == "" then Err("invalid client ID in Stream ID") else Ok(id)
  }

  function ClientIDFromStreamID(streamID: string): Result<string> {
    var s := Trim(streamID);
    if s == "" then Err("Stream ID is required")
    else if !(ACCESS_CONTROL <= s) then Ok(s)
    else ClientFromFields(Split(s[|ACCESS_CONTROL|..], ','))
  }

  /** Each percent sign begins an escape of two hexadecimal digits. */
  predicate WellEscaped(s: string) {
    s == [] || (if s[0] == '%' then |s| >= 3 && IsHex(s[1]) && IsHex(s[2]) && WellEscaped(s[3..]) else WellEscaped(s[1..]))
  }

  lemma {:induction false} DecodesExactly(s: string)
    ensures QueryUnescape(s).Some? <==> WellEscaped(s)
    ensures '%' !in s && '+' !in s ==> QueryUnescape(s) == Some(s)
    ensures QueryUnescape(s) == Some("") <==> s == ""
  {
    if s != [] {
      if s[0] == '%' {
        if |s| >= 3 { DecodesExactly(s[3..]); }
      } else {
        DecodesExactly(s[1..]);
        assert s == [s[0]] + s[1..];
      }
    }
  }

  /** The identity in access-control syntax, field by field: an error if there is no u= field,
      and otherwise what the first one decodes to, which must not be empty. */
  lemma {:induction false} FieldsExactly(fields: seq<string>, k: nat)
    requires k <= |fields| && (forall i | 0 <= i < k :: !("u=" <= fields[i])) && (k < |fields| ==> "u=" <= fields[k])
    ensures if k < |fields| && WellEscaped(fields[k][2..]) && fields[k][2..] != ""
            then QueryUnescape(fields[k][2..]).Some? && ClientFromFields(fields) == Ok(QueryUnescape(fields[k][2..]).value)
            else ClientFromFields(fields).Err?
  {
    if k > 0 {
      FieldsExactly(fields[1..], k - 1);
    } else if fields != [] {
      DecodesExactly(fields[0][2..]);
    }
  }

  /** And whether that syntax is used: behind white space, by the prefix "#!::". */
  lemma IdentityExactly(streamID: string)
    ensures var s := Trim(streamID);
            && (s == "" ==> ClientIDFromStreamID(streamID).Err?)
            && (s != "" && !("#!::" <= s) ==> ClientIDFromStreamID(streamID) == Ok(s))
            && ("#!::" <= s ==> ClientIDFromStreamID(streamID) == ClientFromFields(Split(s[4..], ',')))
  {
  }

  // ---- the caller's side: url.QueryEscape and the access-control syntax ----

  predicate Unreserved(c: char) {
    'a' <= c <= 'z' || 'A' <= c <= 'Z' || '0' <= c <= '9' || c in {'-', '_', '.', '~'}
  }

  function HexDigit(n: nat): (c: char)
    requires n < 16
    ensures IsHex(c) && Unhex(c) == n
  {
    if n < 10 then (n + '0' as int) as char else (n - 10 + 'A' as int) as char
  }

  predicate ByteString(s: string) {
    forall i | 0 <= i < |s| :: s[i] as int < 256
  }

  function QueryEscape(id: string): string
    requires ByteString(id)
  {
    if id == [] then []
    else (if Unreserved(id[0]) then [id[0]]
          else if id[0] == ' ' then "+"
          else ['%', HexDigit(id[0] as int / 16), HexDigit(id[0] as int % 16)]) + QueryEscape(id[1..])
  }

  lemma {:induction false} EscapeRoundTrip(id: string)
    requires ByteString(id)
    ensures QueryUnescape(QueryEscape(id)) == Some(id)
    ensures forall i | 0 <= i < |QueryEscape(id)| :: QueryEscape(id)[i] != ','
  {
    if id != [] {
      EscapeRoundTrip(id[1..]);
      var head := if Unreserved(id[0]) then [id[0]]
                  else if id[0] == ' ' then "+"
                  else ['%', HexDigit(id[0] as int / 16), HexDigit(id[0] as int % 16)];
      assert QueryEscape(id)[|head|..] == QueryEscape(id[1..]);
      assert forall i | 0 <= i < |head| :: QueryEscape(id)[i] == head[i];
      assert id == [id[0]] + id[1..];
    }
  }

  lemma {:induction false} FirstUserFieldDecides(before: seq<string>, field: string, after: seq<string>)
    requires forall i | 0 <= i < |before| :: !("u=" <= before[i])
    ensures ClientFromFields(before + [field] + after) == ClientFromFields([field] + after)
  {
    var all := before + [field] + after;
    if before == [] {
      assert all == [field] + after;
    } else {
      assert all[0] == before[0];
      assert all[1..] == before[1..] + [field] + after;
      FirstUserFieldDecides(before[1..], field, after);
    }
  }

  function AccessFields(before: seq<string>, id: string, after: seq<string>): (fields: seq<string>)
    requires ByteString(id)
    ensures fields != []
  {
    before + ["u=" + QueryEscape(id)] + after
  }

  lemma AccessFieldsName(before: seq<string>, id: string, after: seq<string>)
    requires id != "" && ByteString(id)
    requires forall i | 0 <= i < |before| :: !("u=" <= before[i])
    ensures ClientFromFields(AccessFields(before, id, after)) == Ok(id)
  {
    var field := "u=" + QueryEscape(id);
    EscapeRoundTrip(id);
    FirstUserFieldDecides(before, field, after);
    assert field[2..] == QueryEscape(id);
    assert ([field] + after)[0] == field;
  }

  lemma AccessFieldsSplit(before: seq<string>, id: string, after: seq<string>)
    requires ByteString(id)
    requires forall i | 0 <= i < |before| :: ',' !in before[i]
    requires forall i | 0 <= i < |after| :: ',' !in after[i]
    ensures Split(Join(AccessFields(before, id, after), ','), ',') == AccessFields(before, id, after)
  {
    EscapeRoundTrip(id);
    var field := "u=" + QueryEscape(id);
    assert ',' !in field by {
      assert forall i | 2 <= i < |field| :: field[i] == QueryEscape(id)[i - 2];
    }
    SplitJoin(AccessFields(before, id, after), ',');
  }

  /** A caller that writes its client ID in access-control syntax is read back as
      that client, whatever other fields surround the u= field. */
  lemma AccessControlRoundTrip(before: seq<string>, id: string, after: seq<string>)
    requires id != "" && ByteString(id)
    requires forall i | 0 <= i < |before| :: !("u=" <= before[i]) && ',' !in before[i]
    requires forall i | 0 <= i < |after| :: ',' !in after[i]
    requires Trimmed(ACCESS_CONTROL + Join(AccessFields(before, id, after), ','))
    ensures ClientIDFromStreamID(ACCESS_CONTROL + Join(AccessFields(before, id, after), ',')) == Ok(id)
  {
    var joined := Join(AccessFields(before, id, after), ',');
    var s := ACCESS_CONTROL + joined;
    TrimIsTrimmed(s);
    assert s[|ACCESS_CONTROL|..] == joined;
    AccessFieldsSplit(before, id, after);
    AccessFieldsName(before, id, after);
  }

  /** A plain client ID names itself. */
  lemma PlainIDRoundTrip(id: string)
    requires id != "" && Trimmed(id) && !(ACCESS_CONTROL <= id)
    ensures ClientIDFromStreamID(id) == Ok(id)
  {
    TrimIsTrimmed(id);
  }

  /** An empty Stream ID never names a client: only the compatibility default can serve it. */
  lemma EmptyStreamIDNamesNobody()
    ensures ClientIDFromStreamID("").Err?
  {
  }

  // ---- net.JoinHostPort(ip, port) + NUL + streamID ----

  function JoinHostPort(host: string, port: string): string {
    if ':' in host then "[" + host + "]:" + port else host + ":" + port
  }

  function AttemptKey(ip: string, port: int, streamID: string): string {
    JoinHostPort(ip, Itoa(port)) + [NUL] + streamID
  }

  lemma JoinHostPortInjective(h: string, p: string, h': string, p': string)
    requires ':' !in p && ':' !in p' && JoinHostPort(h, p) == JoinHostPort(h', p')
    ensures h == h' && p == p'
  {
    var a := if ':' in h then "[" + h + "]" else h;
    var a' := if ':' in h' then "[" + h' + "]" else h';
    assert JoinHostPort(h, p) == a + [':'] + p;
    assert JoinHostPort(h', p') == a' + [':'] + p';
    LastCutUnique(a, p, a', p', ':');
    if ':' in h { assert ':' in a; assert h == a[1..|a| - 1]; }
    if ':' in h' { assert ':' in a'; assert h' == a'[1..|a'| - 1]; }
  }

  /** Two handshakes share a key only when they agree on address, port and Stream
      ID. The bridge hands over C strings, so an address contains no NUL. */
  lemma AttemptKeyInjective(ip: string, port: int, sid: string, ip': string, port': int, sid': string)
    requires NUL !in ip && NUL !in ip'
    requires AttemptKey(ip, port, sid) == AttemptKey(ip', port', sid')
    ensures ip == ip' && port == port' && sid == sid'
  {
    ItoaChars(port);
    ItoaChars(port');
    FirstCutUnique(JoinHostPort(ip, Itoa(port)), sid, JoinHostPort(ip', Itoa(port')), sid', NUL);
    JoinHostPortInjective(ip, Itoa(port), ip', Itoa(port'));
    ItoaInjective(port, port');
  }
}
