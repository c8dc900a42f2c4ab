/** The Caddy admin client: the bootstrap Caddyfile, the reachability check, and the
    three-way outcome of a load; and the boot mirror ConfigMap with its stamp. */
module Admin {
  import opened Containers
  import opened GoText

  const ADMIN_LISTEN := ":2019"

  function AdminOrigin(key: string): string {
    "http://" + key + ".caddy-admin-api.ckic.cmld.ru"
  }

  function BootstrapCaddyfile(key: string): string {
    if key == "" then "{\n\tadmin :2019\n}\n"
    else "{\n\tadmin :2019 {\n\t\torigins " + AdminOrigin(key) + "\n\t\tenforce_origin\n\t}\n}\n"
  }

  /** The admin part of an adapted configuration. */
  datatype AdminConfig = AdminConfig(listen: string, enforceOrigin: bool, origins: seq<string>)

  predicate Reachable(key: string, admin: AdminConfig) {
    && admin.listen == ADMIN_LISTEN
    && (key == "" ==> !admin.enforceOrigin)
    && (key != "" ==> AdminOrigin(key) in admin.origins)
  }

  /** What `/adapt` answers with: an undecodable body, an undecodable result, or a config. */
  datatype Adaptation = BadResponse | BadResult | Adapted(admin: AdminConfig)

  datatype Outcome = Loaded | Rejected | Failed

  /** `do`: no status means that the request or the reading of its body failed. */
  function ReplyOutcome(status: Option<int>): Outcome {
    if status.None? then Failed
    else if 200 <= status.value < 300 then Loaded
    else if 400 <= status.value < 500 then Rejected
    else Failed
  }

  /** `Load`: adapt, check that the admin endpoint stays reachable, then load. */
  function Load(key: string, adaptStatus: Option<int>, adaptation: Adaptation, loadStatus: Option<int>): Outcome {
    if ReplyOutcome(adaptStatus) != Loaded then ReplyOutcome(adaptStatus)
    else if !adaptation.Adapted? then Failed
    else if !Reachable(key, adaptation.admin) then Rejected
    else ReplyOutcome(loadStatus)
  }

  /** A load succeeds, is rejected for good, or failed for now, exactly in these cases. */
  lemma LoadExactly(key: string, adaptStatus: Option<int>, adaptation: Adaptation, loadStatus: Option<int>)
    ensures var outcome := Load(key, adaptStatus, adaptation, loadStatus);
            var isVetted := IsSuccess(adaptStatus) && adaptation.Adapted? && Reachable(key, adaptation.admin);
            && (outcome == Loaded <==> isVetted && IsSuccess(loadStatus))
            && (outcome == Rejected <==>
                  || IsClientError(adaptStatus)
                  || (IsSuccess(adaptStatus) && adaptation.Adapted? && !Reachable(key, adaptation.admin))
                  || (isVetted && IsClientError(loadStatus)))
  {
  }

  predicate IsSuccess(status: Option<int>) {
    status.Some? && status.value / 100 == 2
  }

  predicate IsClientError(status: Option<int>) {
    status.Some? && status.value / 100 == 4
  }

  // ----- Who gets an answer -----

  /** A request to the admin endpoint: the port it goes to and its Origin header, if any. */
  datatype Request = Request(port: string, origin: Option<string>)

  /** What a container with this admin configuration answers. */
  predicate Answers(config: AdminConfig, request: Request) {
    && config.listen == request.port
    && (config.enforceOrigin ==> request.origin.Some? && request.origin.value in config.origins)
  }

  /** What the client with an origin key sends: `Load` goes to port 2019, `newRequest` sets the
      header. */
  function RequestOf(key: string): Request {
    Request(":2019", if key == "" then None else Some("http://" + key + ".caddy-admin-api.ckic.cmld.ru"))
  }

  /** `checkAdminReachable` passes exactly the configurations that will answer this client and,
      if it has a key, list its origin. */
  lemma ReachableExactly(key: string, admin: AdminConfig)
    ensures Reachable(key, admin) <==>
              Answers(admin, RequestOf(key)) && (key != "" ==> RequestOf(key).origin.value in admin.origins)
  {
  }

  /** After a successful load the same client's next request is answered. */
  lemma LoadedIsAnswered(key: string, adaptStatus: Option<int>, adaptation: Adaptation, loadStatus: Option<int>)
    requires Load(key, adaptStatus, adaptation, loadStatus) == Loaded
    ensures adaptation.Adapted? && Answers(adaptation.admin, RequestOf(key))
  {
    ReachableExactly(key, adaptation.admin);
  }

  /** Different origin keys give different bootstrap Caddyfiles. */
  lemma BootstrapInjective(a: string, b: string)
    requires BootstrapCaddyfile(a) == BootstrapCaddyfile(b)
    ensures a == b
  {
    if a != "" && b != "" {
      var head, tail := "{\n\tadmin :2019 {\n\t\torigins ", "\n\t\tenforce_origin\n\t}\n}\n";
      FrameInjective(head, AdminOrigin(a), AdminOrigin(b), tail);
      FrameInjective("http://", a, b, ".caddy-admin-api.ckic.cmld.ru");
    } else if a != "" {
      KeyedDiffers(a);
    } else if b != "" {
      KeyedDiffers(b);
    }
  }

  lemma KeyedDiffers(key: string)
    requires key != ""
    ensures BootstrapCaddyfile(key) != BootstrapCaddyfile("")
  {
    assert BootstrapCaddyfile("")[14] == '\n';
    assert BootstrapCaddyfile(key)[14] == ' ';
  }

  // ----- The boot mirror -----

  /** The snapshot-hash annotation: missing, some foreign value, or the digest of a text, which
      is represented by that text. */
  datatype Stamp = Unstamped | Foreign(value: string) | Digest(preimage: string)

  /** The mirror ConfigMap; a missing Caddyfile key reads as the empty string. */
  datatype Mirror = Mirror(caddyfile: string, stamp: Stamp)

  function Paired(bootstrap: string, caddyfile: string): string {
    bootstrap + "\0" + caddyfile
  }

  function SnapshotHash(bootstrap: string, caddyfile: string): Stamp {
    Digest(Paired(bootstrap, caddyfile))
  }

  function Published(bootstrap: string, caddyfile: string): Mirror {
    Mirror(caddyfile, SnapshotHash(bootstrap, caddyfile))
  }

  predicate IsMirrorCurrent(bootstrap: string, accepted: string, mirror: Mirror) {
    mirror.caddyfile == accepted && mirror.stamp == SnapshotHash(bootstrap, mirror.caddyfile)
  }

  /** The handler calls a mirror current exactly when it holds the accepted text with the stamp of
      the bootstrap and that text. */
  lemma MirrorCurrentExactly(bootstrap: string, accepted: string, mirror: Mirror)
    ensures IsMirrorCurrent(bootstrap, accepted, mirror) <==>
              mirror == Mirror(accepted, Digest(bootstrap + "\0" + accepted))
  {
  }

  predicate NulFree(s: string) {
    '\0' !in s
  }

  /** The NUL-separated pair determines both parts when the bootstrap has no NUL. */
  lemma PairedInjective(b: string, t: string, b': string, t': string)
    requires NulFree(b) && NulFree(b')
    requires Paired(b, t) == Paired(b', t')
    ensures b == b' && t == t'
  {
    var p, p' := Paired(b, t), Paired(b', t');
    assert p[|b|] == '\0' && forall i :: 0 <= i < |b| ==> p[i] == b[i];
    assert p'[|b'|] == '\0' && forall i :: 0 <= i < |b'| ==> p'[i] == b'[i];
    assert |b| == |b'|;
    assert b == p[..|b|] && b' == p'[..|b'|];
    assert t == p[|b| + 1..] && t' == p'[|b'| + 1..];
  }

  lemma NulFreeConcat(a: string, b: string)
    requires NulFree(a) && NulFree(b)
    ensures NulFree(a + b)
  {
  }

  lemma BootstrapNulFree(key: string)
    requires NulFree(key)
    ensures NulFree(BootstrapCaddyfile(key))
  {
    if key != "" {
      NulFreeConcat("http://", key);
      NulFreeConcat("http://" + key, ".caddy-admin-api.ckic.cmld.ru");
      NulFreeConcat("{\n\tadmin :2019 {\n\t\torigins ", AdminOrigin(key));
      NulFreeConcat("{\n\tadmin :2019 {\n\t\torigins " + AdminOrigin(key), "\n\t\tenforce_origin\n\t}\n}\n");
    }
  }
}
