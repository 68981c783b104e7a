/** The stored user: `JSON.stringify` of the login response and the
    `JSON.parse` that reads it back. The encoding is the object text with
    the five members in the response's order, each value a JSON string in
    which `"` and `\` are escaped. Decoding accepts exactly that shape; any
    other text makes the parse fail, standing for a `JSON.parse` that
    throws. */
module SessionCodec {
  import opened Http

  datatype User = User(id: string, email: string, name: string, role: string, token: string)

  /** The text a failing parse reports; callers only log it or discard it. */
  const MalformedUser := "Unexpected token in JSON"

  /** A JSON string body: `"` and `\` get a backslash in front. */
  function Escape(t: string): (e: string)
    ensures |e| >= |t|
  {
    if t == [] then []
    else (if t[0] == '"' || t[0] == '\\' then ['\\', t[0]] else [t[0]]) + Escape(t[1..])
  }

  /** Reads a string body up to its closing quote, undoing the escapes;
      yields the text and what follows the quote. */
  function ReadString(s: string): Option<(string, string)>
    decreases |s|
  {
    if s == [] then None
    else if s[0] == '"' then Some(([], s[1..]))
    else if s[0] == '\\' then
      if |s| < 2 || !(s[1] == '"' || s[1] == '\\') then None
      else match ReadString(s[2..])
        case None => None
        case Some((t, rest)) => Some(([s[1]] + t, rest))
    else match ReadString(s[1..])
      case None => None
      case Some((t, rest)) => Some(([s[0]] + t, rest))
  }

  /** One member: the literal text before the value, the escaped value and
      its closing quote, then the rest of the object. */
  function Member(prefix: string, value: string, rest: string): string {
    prefix + Escape(value) + "\"" + rest
  }

  /** Reads the member that starts with `prefix`. */
  function ReadMember(s: string, prefix: string): Option<(string, string)> {
    if |prefix| <= |s| && s[..|prefix|] == prefix then ReadString(s[|prefix|..]) else None
  }

  const IdPrefix := "{\"id\":\""
  const EmailPrefix := ",\"email\":\""
  const NamePrefix := ",\"name\":\""
  const RolePrefix := ",\"role\":\""
  const TokenPrefix := ",\"token\":\""

  /** `JSON.stringify(user)`. */
  function Encode(u: User): string {
    Member(IdPrefix, u.id,
      Member(EmailPrefix, u.email,
        Member(NamePrefix, u.name,
          Member(RolePrefix, u.role,
            Member(TokenPrefix, u.token, "}")))))
  }

  /** `JSON.parse(text) as User`; `None` when the text is not such an
      object. */
  function Decode(s: string): Option<User> {
    match ReadMember(s, IdPrefix)
    case None => None
    case Some((id, r1)) =>
      match ReadMember(r1, EmailPrefix)
      case None => None
      case Some((email, r2)) =>
        match ReadMember(r2, NamePrefix)
        case None => None
        case Some((name, r3)) =>
          match ReadMember(r3, RolePrefix)
          case None => None
          case Some((role, r4)) =>
            match ReadMember(r4, TokenPrefix)
            case None => None
            case Some((token, r5)) =>
              if r5 == "}" then Some(User(id, email, name, role, token)) else None
  }

  /** Reading an escaped string body gives back the original text. */
  lemma {:induction false} ReadEscaped(t: string, rest: string)
    ensures ReadString(Escape(t) + "\"" + rest) == Some((t, rest))
  {
    var s := Escape(t) + "\"" + rest;
    if t == [] {
      assert s == "\"" + rest;
    } else {
      ReadEscaped(t[1..], rest);
      var tail := Escape(t[1..]) + "\"" + rest;
      if t[0] == '"' || t[0] == '\\' {
        assert s == ['\\', t[0]] + tail;
        assert s[2..] == tail;
      } else {
        assert s == [t[0]] + tail;
        assert s[1..] == tail;
      }
      assert [t[0]] + t[1..] == t;
    }
  }

  lemma ReadMemberOf(prefix: string, value: string, rest: string)
    ensures ReadMember(Member(prefix, value, rest), prefix) == Some((value, rest))
  {
    var s := Member(prefix, value, rest);
    assert s[..|prefix|] == prefix;
    assert s[|prefix|..] == Escape(value) + "\"" + rest;
    ReadEscaped(value, rest);
  }

  /** What `JSON.stringify` stores, `JSON.parse` reads back unchanged. */
  lemma DecodeEncode(u: User)
    ensures Decode(Encode(u)) == Some(u)
  {
    var r5 := "}";
    var r4 := Member(TokenPrefix, u.token, r5);
    var r3 := Member(RolePrefix, u.role, r4);
    var r2 := Member(NamePrefix, u.name, r3);
    var r1 := Member(EmailPrefix, u.email, r2);
    ReadMemberOf(IdPrefix, u.id, r1);
    ReadMemberOf(EmailPrefix, u.email, r2);
    ReadMemberOf(NamePrefix, u.name, r3);
    ReadMemberOf(RolePrefix, u.role, r4);
    ReadMemberOf(TokenPrefix, u.token, r5);
  }

  /** The stored text is never empty, so `if (userStr)` always admits it. */
  lemma EncodeNonEmpty(u: User)
    ensures Encode(u) != ""
  {
    assert |Encode(u)| >= |IdPrefix|;
  }

  /** A string body is read only from its own escaped form. */
  lemma {:induction false} ReadStringCanonical(s: string)
    requires ReadString(s).Some?
    ensures s == Escape(ReadString(s).value.0) + "\"" + ReadString(s).value.1
    decreases |s|
  {
    var (t, rest) := ReadString(s).value;
    if s[0] == '"' {
      assert t == [];
    } else if s[0] == '\\' {
      ReadStringCanonical(s[2..]);
      assert t[1..] == ReadString(s[2..]).value.0;
      assert s == [s[0], s[1]] + s[2..];
    } else {
      ReadStringCanonical(s[1..]);
      assert t[1..] == ReadString(s[1..]).value.0;
      assert s == [s[0]] + s[1..];
    }
  }

  lemma ReadMemberCanonical(s: string, prefix: string)
    requires ReadMember(s, prefix).Some?
    ensures s == Member(prefix, ReadMember(s, prefix).value.0, ReadMember(s, prefix).value.1)
  {
    ReadStringCanonical(s[|prefix|..]);
    assert s == s[..|prefix|] + s[|prefix|..];
  }

  /** Only the stored form of a user parses as that user: decoding is the
      exact inverse of encoding. */
  lemma EncodeDecode(s: string)
    requires Decode(s).Some?
    ensures Encode(Decode(s).value) == s
  {
    var (id, r1) := ReadMember(s, IdPrefix).value;
    ReadMemberCanonical(s, IdPrefix);
    var (email, r2) := ReadMember(r1, EmailPrefix).value;
    ReadMemberCanonical(r1, EmailPrefix);
    var (name, r3) := ReadMember(r2, NamePrefix).value;
    ReadMemberCanonical(r2, NamePrefix);
    var (role, r4) := ReadMember(r3, RolePrefix).value;
    ReadMemberCanonical(r3, RolePrefix);
    ReadMemberCanonical(r4, TokenPrefix);
  }
}
