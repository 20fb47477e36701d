/** Names the reconcilers derive: labels, field managers, object names, map keys. */
module Conventions {
  import opened Text

  datatype Option<+T> = None | Some(value: T)

  /** The two L4 protocols the CRD admits. */
  datatype Protocol = TCP | UDP {
    function Text(): string { if this.TCP? then "tcp" else "udp" }
  }

  datatype ObjectKey = ObjectKey(namespace: string, name: string)

  function AllocKey(protocol: Protocol, name: string): string {
    protocol.Text() + "/" + name
  }

  lemma AllocKeyInjective(p: Protocol, n: string, q: Protocol, m: string)
    ensures AllocKey(p, n) == AllocKey(q, m) <==> p == q && n == m
  {
    if AllocKey(p, n) == AllocKey(q, m) {
      assert p.Text() + ['/'] + n == q.Text() + ['/'] + m;
      CutIsUnique(p.Text(), n, q.Text(), m, '/');
    }
  }

  function PortLabelPrefix(t: ObjectKey): string {
    t.namespace + "/" + t.name + "/"
  }

  function PortLabel(t: ObjectKey, service: string): string {
    PortLabelPrefix(t) + service
  }

  /** One tunnel's prefix matches exactly its own labels, whatever the services are called. */
  lemma PortLabelDecodes(t: ObjectKey, s: string, u: ObjectKey, r: string)
    requires '/' !in t.namespace && '/' !in t.name && '/' !in u.namespace && '/' !in u.name
    ensures PortLabel(t, s) == t.namespace + "/" + t.name + "/" + s
    ensures PortLabel(t, s) == PortLabel(u, r) <==> t == u && s == r
    ensures PortLabelPrefix(t) <= PortLabel(u, r) <==> t == u
  {
    if PortLabelPrefix(t) <= PortLabel(u, r) {
      var rest := PortLabel(u, r)[|PortLabelPrefix(t)|..];
      assert PortLabelPrefix(t) + rest == PortLabel(u, r);
      assert PortLabelPrefix(t) + rest == t.namespace + ['/'] + (t.name + ['/'] + rest);
      assert PortLabel(u, r) == u.namespace + ['/'] + (u.name + ['/'] + r);
      assert t.namespace + ['/'] + (t.name + ['/'] + rest) == u.namespace + ['/'] + (u.name + ['/'] + r);
      CutIsUnique(t.namespace, t.name + ['/'] + rest, u.namespace, u.name + ['/'] + r, '/');
      CutIsUnique(t.name, rest, u.name, r, '/');
    }
    if PortLabel(t, s) == PortLabel(u, r) {
      assert PortLabelPrefix(t) <= PortLabel(u, r);
      assert PortLabel(t, s)[|PortLabelPrefix(t)|..] == s;
      assert PortLabel(u, r)[|PortLabelPrefix(t)|..] == r;
    }
  }

  /** Within one tunnel no name needs excluding: the prefix is fixed. */
  lemma PortLabelInjective(t: ObjectKey, s: string, r: string)
    ensures PortLabel(t, s) == PortLabel(t, r) <==> s == r
  {
    assert PortLabel(t, s)[|PortLabelPrefix(t)|..] == s;
    assert PortLabel(t, r)[|PortLabelPrefix(t)|..] == r;
  }

  const SOURCE_MANAGER_PREFIX := "towonel-src:"

  function SrcFieldManager(kind: string, source: ObjectKey): string {
    SOURCE_MANAGER_PREFIX + kind + ":" + source.namespace + ":" + source.name
  }

  /** Two sources share a field manager only if they are the same object. */
  lemma SrcFieldManagerInjective(k1: string, s1: ObjectKey, k2: string, s2: ObjectKey)
    requires ':' !in k1 && ':' !in k2 && ':' !in s1.namespace && ':' !in s2.namespace
    ensures SrcFieldManager(k1, s1) == "towonel-src:" + k1 + ":" + s1.namespace + ":" + s1.name
    ensures SrcFieldManager(k1, s1) == SrcFieldManager(k2, s2) <==> k1 == k2 && s1 == s2
    ensures SOURCE_MANAGER_PREFIX <= SrcFieldManager(k1, s1)
  {
    var n := |SOURCE_MANAGER_PREFIX|;
    var t1, t2 := s1.namespace + [':'] + s1.name, s2.namespace + [':'] + s2.name;
    assert SrcFieldManager(k1, s1)[n..] == k1 + [':'] + t1;
    assert SrcFieldManager(k2, s2)[n..] == k2 + [':'] + t2;
    if SrcFieldManager(k1, s1) == SrcFieldManager(k2, s2) {
      CutIsUnique(k1, t1, k2, t2, ':');
      CutIsUnique(s1.namespace, s1.name, s2.namespace, s2.name, ':');
    }
  }

  /** The text an owner hash is taken of, and the "ns/name" an owner annotation carries. */
  function QualifiedName(t: ObjectKey): string {
    t.namespace + "/" + t.name
  }

  /** The first 16 hex characters of a digest: any function producing them. */
  predicate IsOwnerHash(digest: string -> string, t: ObjectKey) {
    |digest(QualifiedName(t))| == 16 && '.' !in digest(QualifiedName(t))
  }

  function OwnerHash(digest: string -> string, t: ObjectKey): string {
    digest(QualifiedName(t))
  }

  const MAX_OBJECT_NAME := 253
  const DNS_NAME_PREFIX := "towonel."

  function DnsEndpointName(digest: string -> string, t: ObjectKey): string {
    var n := DNS_NAME_PREFIX + t.namespace + "." + t.name;
    if |n| <= MAX_OBJECT_NAME then n else DNS_NAME_PREFIX + OwnerHash(digest, t)
  }

  /** Two tunnels share a DNSEndpoint name only if they are the same tunnel. */
  lemma DnsEndpointNameInjective(digest: string -> string, t: ObjectKey, u: ObjectKey)
    requires '.' !in t.namespace && '.' !in u.namespace
    requires IsOwnerHash(digest, t) && IsOwnerHash(digest, u)
    requires t != u ==> OwnerHash(digest, t) != OwnerHash(digest, u)
    ensures DnsEndpointName(digest, t) == DnsEndpointName(digest, u) <==> t == u
    ensures |DnsEndpointName(digest, t)| <= MAX_OBJECT_NAME
    ensures DnsEndpointName(digest, t)
            == if |t.namespace| + |t.name| <= 244 then "towonel." + t.namespace + "." + t.name
               else "towonel." + digest(t.namespace + "/" + t.name)
  {
    var a, b := DnsEndpointName(digest, t), DnsEndpointName(digest, u);
    var n := |DNS_NAME_PREFIX|;
    var x, y := t.namespace + ['.'] + t.name, u.namespace + ['.'] + u.name;
    assert x[|t.namespace|] == '.' && y[|u.namespace|] == '.';
    if a == b {
      var longA := |DNS_NAME_PREFIX + t.namespace + "." + t.name| > MAX_OBJECT_NAME;
      var longB := |DNS_NAME_PREFIX + u.namespace + "." + u.name| > MAX_OBJECT_NAME;
      assert a[n..] == if longA then OwnerHash(digest, t) else x;
      assert b[n..] == if longB then OwnerHash(digest, u) else y;
      if !longA && !longB {
        CutIsUnique(t.namespace, t.name, u.namespace, u.name, '.');
      }
    }
  }
}
