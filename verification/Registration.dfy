/** Credentials and tunnel addresses: internal/registration/client.go, internal/auth/token.go and the
    address fallback of internal/websocket/manager.go.
 */
module Registration {

  datatype Config = Config(apiEndpoint: string)

  datatype Response = Response(clusterId: string, jwt: string, wsEndpoint: string, webSocketUrl: string)

  datatype Rotation = Rotation(jwt: string, wsEndpoint: string)

  class TokenStore {
    var token: string

    constructor ()
      ensures token == ""
    {
      token := "";
    }

    method Set(t: string)
      modifies this
      ensures token == t
    {
      token := t;
    }

    method Get() returns (t: string)
      ensures t == token
    {
      return token;
    }
  }

  /** What Register makes of a successful reply. */
  function Completed(out: Response): Response {
    if out.webSocketUrl == "" then out.(webSocketUrl := out.wsEndpoint) else out
  }

  function TunnelURL(r: Response): string {
    if r.webSocketUrl != "" then r.webSocketUrl else r.wsEndpoint
  }

  /** The tunnel loop's update of its registration record. */
  function Rotated(r: Response, rotation: Rotation): Response {
    if rotation.wsEndpoint != "" then r.(wsEndpoint := rotation.wsEndpoint, webSocketUrl := rotation.wsEndpoint) else r
  }

  /** strings.Replace with a count of one. */
  function ReplaceFirst(s: string, was: string, now: string): string {
    if was <= s then now + s[|was|..]
    else if s == "" then ""
    else [s[0]] + ReplaceFirst(s[1..], was, now)
  }

  /** `was` occurs in `s` at position `i`. */
  predicate OccursAt(s: string, was: string, i: nat) {
    i + |was| <= |s| && s[i..i + |was|] == was
  }

  lemma OccursInTail(s: string, was: string, i: nat)
    requires s != ""
    ensures OccursAt(s[1..], was, i) <==> OccursAt(s, was, i + 1)
  {
    if i + 1 + |was| <= |s| {
      assert s[1..][i..i + |was|] == s[i + 1..i + 1 + |was|];
    }
  }

  predicate FirstAt(s: string, was: string, i: nat) {
    OccursAt(s, was, i) && forall j: nat :: j < i ==> !OccursAt(s, was, j)
  }

  lemma FirstInTail(s: string, was: string, i: nat)
    requires i > 0 && FirstAt(s, was, i)
    ensures s != "" && !(was <= s) && FirstAt(s[1..], was, i - 1)
  {
    assert !OccursAt(s, was, 0);
    OccursInTail(s, was, i - 1);
    forall j: nat | j < i - 1
      ensures !OccursAt(s[1..], was, j)
    {
      OccursInTail(s, was, j);
    }
  }

  /** The first occurrence, and nothing else, is replaced. */
  lemma {:induction false} ReplaceFirstAt(s: string, was: string, now: string, i: nat)
    requires FirstAt(s, was, i)
    ensures ReplaceFirst(s, was, now) == s[..i] + now + s[i + |was|..]
  {
    if i == 0 {
      assert was <= s;
      assert s[..0] + now == now;
    } else {
      FirstInTail(s, was, i);
      ReplaceFirstAt(s[1..], was, now, i - 1);
      Reattach(s, i, now, i + |was|);
    }
  }

  lemma Reattach(s: string, i: nat, now: string, j: nat)
    requires 0 < i <= j <= |s|
    ensures [s[0]] + (s[1..][..i - 1] + now + s[1..][j - 1..]) == s[..i] + now + s[j..]
  {
    assert s[1..][j - 1..] == s[j..];
    assert [s[0]] + s[1..][..i - 1] == s[..i];
  }

  lemma {:induction false} ReplaceFirstAbsent(s: string, was: string, now: string)
    requires forall i: nat :: !OccursAt(s, was, i)
    ensures ReplaceFirst(s, was, now) == s
  {
    assert !OccursAt(s, was, 0);
    if s != "" {
      forall i: nat
        ensures !OccursAt(s[1..], was, i)
      {
        OccursInTail(s, was, i);
      }
      ReplaceFirstAbsent(s[1..], was, now);
    }
  }

  function DerivedEndpoint(cfg: Config): string {
    ReplaceFirst(cfg.apiEndpoint, "https://", "wss://") + "/ws"
  }

  /** An https control plane is dialled over wss at /ws, whatever follows the scheme. */
  lemma DerivedFromHttps(cfg: Config, rest: string)
    requires cfg.apiEndpoint == "https://" + rest
    ensures DerivedEndpoint(cfg) == "wss://" + rest + "/ws"
  {
    assert "https://" <= cfg.apiEndpoint;
    assert cfg.apiEndpoint[|"https://"|..] == rest;
  }

  /** Any other control plane: the first occurrence of the scheme is replaced wherever it stands, and a
      control plane without it is dialled at its own address followed by /ws. */
  lemma DerivedOtherwise(cfg: Config)
    ensures forall i: nat :: FirstAt(cfg.apiEndpoint, "https://", i) ==>
      DerivedEndpoint(cfg) == cfg.apiEndpoint[..i] + "wss://" + cfg.apiEndpoint[i + 8..] + "/ws"
    ensures (forall i: nat :: !OccursAt(cfg.apiEndpoint, "https://", i)) ==> DerivedEndpoint(cfg) == cfg.apiEndpoint + "/ws"
  {
    forall i: nat | FirstAt(cfg.apiEndpoint, "https://", i)
      ensures DerivedEndpoint(cfg) == cfg.apiEndpoint[..i] + "wss://" + cfg.apiEndpoint[i + 8..] + "/ws"
    {
      ReplaceFirstAt(cfg.apiEndpoint, "https://", "wss://", i);
    }
    if forall i: nat :: !OccursAt(cfg.apiEndpoint, "https://", i) {
      ReplaceFirstAbsent(cfg.apiEndpoint, "https://", "wss://");
    }
  }

  /** The address connectAndServe dials. */
  function DialAddress(cfg: Config, r: Response): string {
    if TunnelURL(r) == "" then DerivedEndpoint(cfg) else TunnelURL(r)
  }

  /** The last non-empty string, or the empty string when there is none. */
  function LastNonEmpty(xs: seq<string>): string {
    if xs == [] then ""
    else if xs[|xs| - 1] != "" then xs[|xs| - 1]
    else LastNonEmpty(xs[..|xs| - 1])
  }

  lemma {:induction false} LastNonEmptyMeaning(xs: seq<string>)
    ensures LastNonEmpty(xs) == "" <==> forall i :: 0 <= i < |xs| ==> xs[i] == ""
    ensures LastNonEmpty(xs) != "" ==>
      exists i :: 0 <= i < |xs| && xs[i] == LastNonEmpty(xs) && forall j :: i < j < |xs| ==> xs[j] == ""
  {
    if xs != [] {
      var n := |xs| - 1;
      if xs[n] == "" {
        LastNonEmptyMeaning(xs[..n]);
        if LastNonEmpty(xs) != "" {
          var i :| 0 <= i < n && xs[..n][i] == LastNonEmpty(xs) && forall j :: i < j < n ==> xs[..n][j] == "";
          assert xs[i] == LastNonEmpty(xs);
          forall j | i < j < |xs|
            ensures xs[j] == ""
          {
            if j < n {
              assert xs[..n][j] == "";
            }
          }
        } else {
          forall i | 0 <= i < |xs|
            ensures xs[i] == ""
          {
            if i < n {
              assert xs[..n][i] == "";
            }
          }
        }
      }
    }
  }

  lemma LastNonEmptySnoc(xs: seq<string>, x: string)
    ensures LastNonEmpty(xs + [x]) == if x != "" then x else LastNonEmpty(xs)
  {
    assert (xs + [x])[..|xs|] == xs;
  }
}
