// The keys login attempts are counted under: a canonical address for the source,
// and a namespaced name for the target.
module IpKeys {
  import opened Numerals

  predicate IsSpace(c: char) {
    c == ' ' || '\t' <= c <= '\r' || c == '\U{85}' || c == '\U{A0}'
  }

  predicate IsBracket(c: char) { c == '[' || c == ']' }

  function TrimLeft(s: string, cut: char -> bool): string {
    if s != "" && cut(s[0]) then TrimLeft(s[1..], cut) else s
  }

  function TrimRight(s: string, cut: char -> bool): string {
    if s != "" && cut(s[|s| - 1]) then TrimRight(s[..|s| - 1], cut) else s
  }

  function Trim(s: string, cut: char -> bool): string { TrimRight(TrimLeft(s, cut), cut) }

  function TrimSpace(s: string): string { Trim(s, IsSpace) }

  function ToLower(s: string): string {
    seq(|s|, i requires 0 <= i < |s| => if 'A' <= s[i] <= 'Z' then s[i] - 'A' + 'a' else s[i])
  }

  // The first position of a character, or the length.
  function IndexOf(s: string, c: char): (i: nat)
    ensures i <= |s| && c !in s[..i]
    ensures i < |s| ==> s[i] == c
  {
    if s == "" then 0
    else if s[0] == c then 0
    else
      assert forall k :: 0 <= k < IndexOf(s[1..], c) ==> s[k + 1] == s[1..][k];
      1 + IndexOf(s[1..], c)
  }

  // The last position of a character, or -1.
  function LastIndexOf(s: string, c: char): (i: int)
    ensures -1 <= i < |s|
    ensures i >= 0 ==> s[i] == c
    ensures forall k :: i < k < |s| ==> s[k] != c
  {
    if s == "" then -1
    else if s[|s| - 1] == c then |s| - 1
    else LastIndexOf(s[..|s| - 1], c)
  }

  // The host of a host:port, when the text is one.
  function SplitHostPort(s: string): Option<string> {
    var i := LastIndexOf(s, ':');
    if i < 0 then None
    else if s[0] == '[' then
      var end := IndexOf(s, ']');
      if end == |s| || end + 1 != i || '[' in s[1..] || ']' in s[end + 1..] then None
      else Some(s[1..end])
    else if ':' in s[..i] || '[' in s || ']' in s then None
    else Some(s[..i])
  }

  // The host part of a host:port, or the whole text.
  function Host(s: string): string {
    var split := SplitHostPort(s);
    if split.Some? then split.value else s
  }

  function NormalizeIP(parseIP: string -> Option<string>, raw: string): string {
    var s := TrimSpace(raw);
    if s == "" then ""
    else
      var host := Trim(Host(s), IsBracket);
      var ip := parseIP(host);
      if ip.Some? then ip.value else host
  }

  const USER_PREFIX: string := "user\0"

  function UsernameKey(username: string): string {
    USER_PREFIX + ToLower(TrimSpace(username))
  }

  predicate IsUserKey(key: string) { USER_PREFIX <= key }

  // No text holding a NUL is an address.
  ghost predicate ParsesAddresses(parseIP: string -> Option<string>) {
    forall s :: '\0' in s ==> parseIP(s).None?
  }

  // A name that reads as "host:port", or that ends in a bracket.
  predicate LooksLikeHostPort(name: string) {
    || (':' in name && ':' !in name[..LastIndexOf(name, ':')] && '[' !in name && ']' !in name)
    || (name != "" && IsBracket(name[|name| - 1]))
  }

  lemma {:induction false} TrimRightKeeps(s: string, cut: char -> bool)
    requires s == "" || !cut(s[|s| - 1])
    ensures TrimRight(s, cut) == s
  {
  }

  lemma {:induction false} TrimRightEnds(s: string, cut: char -> bool)
    ensures TrimRight(s, cut) == "" || !cut(TrimRight(s, cut)[|TrimRight(s, cut)| - 1])
    ensures TrimRight(s, cut) <= s
  {
    if s != "" && cut(s[|s| - 1]) { TrimRightEnds(s[..|s| - 1], cut); }
  }

  // The key a username is cleared under is the key it was counted under exactly
  // when the name does not read as a host and a port.
  lemma ClearedKeyIsCountedKeyIff(parseIP: string -> Option<string>, username: string)
    requires ParsesAddresses(parseIP)
    ensures NormalizeIP(parseIP, UsernameKey(username)) == UsernameKey(username)
            <==> !LooksLikeHostPort(ToLower(TrimSpace(username)))
  {
    NormalizedUserKey(parseIP, username);
    HostIsWholeKeyIff(ToLower(TrimSpace(username)));
  }

  lemma HostIsWholeKeyIff(name: string)
    ensures TrimRight(Host(USER_PREFIX + name), IsBracket) == USER_PREFIX + name <==> !LooksLikeHostPort(name)
  {
    var key := USER_PREFIX + name;
    UserKeySplit(name);
    TrimRightEnds(Host(key), IsBracket);
    if SplitHostPort(key).None? {
      BracketsCut(name);
    }
  }

  lemma UserKeySplit(name: string)
    ensures SplitHostPort(USER_PREFIX + name).Some? <==>
              ':' in name && ':' !in name[..LastIndexOf(name, ':')] && '[' !in name && ']' !in name
    ensures var split := SplitHostPort(USER_PREFIX + name);
            split.Some? ==> USER_PREFIX <= split.value && |split.value| < |USER_PREFIX + name|
  {
    UserPrefixIsPlain();
    KeySplit(USER_PREFIX, name);
  }

  lemma UserPrefixIsPlain()
    ensures Plain(USER_PREFIX)
  {
    assert USER_PREFIX == ['u', 's', 'e', 'r', '\0'];
  }

  predicate Plain(prefix: string) {
    prefix != "" && ':' !in prefix && '[' !in prefix && ']' !in prefix
  }

  lemma BracketsCut(name: string)
    ensures TrimRight(USER_PREFIX + name, IsBracket) == USER_PREFIX + name
            <==> name == "" || !IsBracket(name[|name| - 1])
  {
    var key := USER_PREFIX + name;
    LastOfKey(name);
    TrimRightEnds(key, IsBracket);
    if !IsBracket(key[|key| - 1]) {
      TrimRightKeeps(key, IsBracket);
    }
  }

  lemma LastOfKey(name: string)
    ensures var key := USER_PREFIX + name;
            key != "" && key[|key| - 1] == if name == "" then '\0' else name[|name| - 1]
  {
    assert USER_PREFIX[4] == '\0';
  }

  lemma NormalizedUserKey(parseIP: string -> Option<string>, username: string)
    requires ParsesAddresses(parseIP)
    ensures NormalizeIP(parseIP, UsernameKey(username)) == TrimRight(Host(UsernameKey(username)), IsBracket)
  {
    KeyIsTrimmed(username);
    UserKeySplit(ToLower(TrimSpace(username)));
    NormalizePrefixed(parseIP, UsernameKey(username));
  }

  lemma NormalizePrefixed(parseIP: string -> Option<string>, key: string)
    requires ParsesAddresses(parseIP)
    requires TrimSpace(key) == key && USER_PREFIX <= key && USER_PREFIX <= Host(key)
    ensures NormalizeIP(parseIP, key) == TrimRight(Host(key), IsBracket)
  {
    HostKeepsPrefix(Host(key));
    NotCutOnTheLeft(Host(key));
  }

  lemma NotCutOnTheLeft(text: string)
    requires USER_PREFIX <= text
    ensures TrimLeft(text, IsBracket) == text
  {
    assert text[0] == USER_PREFIX[0] == 'u';
  }

  lemma {:induction false} HostKeepsPrefix(text: string)
    requires USER_PREFIX <= text
    ensures USER_PREFIX <= TrimRight(text, IsBracket)
    ensures HasNul(TrimRight(text, IsBracket))
  {
    if |text| > |USER_PREFIX| {
      if IsBracket(text[|text| - 1]) { HostKeepsPrefix(text[..|text| - 1]); }
    } else {
      assert text == USER_PREFIX;
    }
    assert TrimRight(text, IsBracket)[4] == '\0';
  }

  predicate HasNul(s: string) { '\0' in s }

  lemma KeyIsTrimmed(username: string)
    ensures TrimSpace(UsernameKey(username)) == UsernameKey(username)
  {
    var trimmed := TrimSpace(username);
    var name := ToLower(trimmed);
    var key := UsernameKey(username);
    TrimRightEnds(TrimLeft(username, IsSpace), IsSpace);
    assert key[0] == 'u';
    assert TrimLeft(key, IsSpace) == key;
    assert key[|key| - 1] == if name == "" then '\0' else name[|name| - 1];
    TrimRightKeeps(key, IsSpace);
  }

  lemma KeySplit(prefix: string, name: string)
    requires Plain(prefix)
    ensures SplitHostPort(prefix + name).Some? <==>
              ':' in name && ':' !in name[..LastIndexOf(name, ':')] && '[' !in name && ']' !in name
    ensures var split := SplitHostPort(prefix + name);
            split.Some? ==> prefix <= split.value && |split.value| < |prefix + name|
  {
    var key := prefix + name;
    assert key[0] == prefix[0] && key[0] != '[';
    var i := LastIndexOf(name, ':');
    LastIndexAfterPrefix(prefix, name, ':');
    InAfterPrefix(prefix, name, '[');
    InAfterPrefix(prefix, name, ']');
    if i >= 0 {
      CutAfterPrefix(prefix, name, i);
      InAfterPrefix(prefix, name[..i], ':');
    }
  }

  lemma CutAfterPrefix(prefix: string, s: string, i: nat)
    requires i <= |s|
    ensures (prefix + s)[..|prefix| + i] == prefix + s[..i]
  {
  }

  lemma InAfterPrefix(prefix: string, s: string, c: char)
    requires c !in prefix
    ensures c in prefix + s <==> c in s
  {
  }

  lemma {:induction false} LastIndexAfterPrefix(prefix: string, s: string, c: char)
    requires c !in prefix
    ensures LastIndexOf(prefix + s, c) == if LastIndexOf(s, c) < 0 then -1 else |prefix| + LastIndexOf(s, c)
  {
    var whole := prefix + s;
    if s == "" {
      assert whole == prefix;
    } else if s[|s| - 1] == c {
      assert whole[|whole| - 1] == c;
    } else {
      assert whole[|whole| - 1] == s[|s| - 1];
      assert whole[..|whole| - 1] == prefix + s[..|s| - 1];
      LastIndexAfterPrefix(prefix, s[..|s| - 1], c);
    }
  }
}
