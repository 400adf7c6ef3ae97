/**
 * Pod listing: each upstream pod becomes a flat `PodInfo` record, the records
 * are rendered as text, and every exception becomes an error message
 * (`get_pods_tool`, `format_pods_output`).
 */
module Pods {
  import opened Wrappers
  import opened Text
  import opened Upstream
  import Client
  import Config

  /** The flat record one upstream pod is turned into. */
  datatype PodInfo = PodInfo(
    name: string,
    namespace: string,
    phase: string,
    node: string,
    ready: int,
    total: int,
    restarts: int)

  const Unscheduled: string := "unscheduled"

  /** `pod.status.container_statuses or []`. */
  function StatusesOf(pod: Pod): seq<ContainerStatus> {
    pod.containerStatuses.GetOr([])
  }

  /** How many of the statuses report their container ready. */
  function CountReady(statuses: seq<ContainerStatus>): (n: nat)
    ensures n <= |statuses|
  {
    if statuses == [] then 0
    else (if statuses[0].ready then 1 else 0) + CountReady(statuses[1..])
  }

  /** Counting the ready statuses of two lists one after the other adds their counts. */
  lemma {:induction false} CountReadyAppend(a: seq<ContainerStatus>, b: seq<ContainerStatus>)
    ensures CountReady(a + b) == CountReady(a) + CountReady(b)
  {
    if a == [] {
      assert a + b == b;
    } else {
      assert (a + b)[0] == a[0] && (a + b)[1..] == a[1..] + b;
      CountReadyAppend(a[1..], b);
    }
  }

  /** The sum of the restart counts. */
  function SumRestarts(statuses: seq<ContainerStatus>): int
  {
    if statuses == [] then 0 else statuses[0].restartCount + SumRestarts(statuses[1..])
  }

  /** The restart counts of two lists one after the other sum to the sum of their sums. */
  lemma {:induction false} SumRestartsAppend(a: seq<ContainerStatus>, b: seq<ContainerStatus>)
    ensures SumRestarts(a + b) == SumRestarts(a) + SumRestarts(b)
  {
    if a == [] {
      assert a + b == b;
    } else {
      assert (a + b)[0] == a[0] && (a + b)[1..] == a[1..] + b;
      SumRestartsAppend(a[1..], b);
    }
  }

  /** A single status counts one when ready and none otherwise, and contributes its own restarts. */
  lemma OneStatus(status: ContainerStatus)
    ensures CountReady([status]) == if status.ready then 1 else 0
    ensures SumRestarts([status]) == status.restartCount
  {
    assert [status][1..] == [];
  }

  /** `pod.spec.node_name or "unscheduled"`. */
  function NodeOf(pod: Pod): (node: string)
    ensures node != ""
    ensures pod.nodeName.Some? && pod.nodeName.value != "" ==> node == pod.nodeName.value
    ensures pod.nodeName.None? || pod.nodeName == Some("") ==> node == Unscheduled
  {
    match pod.nodeName
    case Some(n) => if n != "" then n else Unscheduled
    case None => Unscheduled
  }

  /** The record for one upstream pod. */
  function ToPodInfo(pod: Pod): (info: PodInfo)
    ensures info.name == pod.name && info.namespace == pod.namespace && info.phase == pod.phase
    ensures info.node == NodeOf(pod)
    ensures info.total == |StatusesOf(pod)|
    ensures 0 <= info.ready <= info.total
    ensures pod.containerStatuses.None? ==> info.ready == info.total == info.restarts == 0
  {
    var statuses := StatusesOf(pod);
    PodInfo(pod.name, pod.namespace, pod.phase, NodeOf(pod),
            CountReady(statuses), |statuses|, SumRestarts(statuses))
  }

  /** Every container is ready exactly when the ready count reaches the total. */
  lemma {:induction false} AllReadyIff(statuses: seq<ContainerStatus>)
    ensures CountReady(statuses) == |statuses| <==> forall i :: 0 <= i < |statuses| ==> statuses[i].ready
  {
    if statuses != [] {
      AllReadyIff(statuses[1..]);
      assert forall i :: 1 <= i < |statuses| ==> statuses[i] == statuses[1..][i - 1];
    }
  }

  /** No container is ready exactly when the ready count is zero. */
  lemma {:induction false} NoneReadyIff(statuses: seq<ContainerStatus>)
    ensures CountReady(statuses) == 0 <==> forall i :: 0 <= i < |statuses| ==> !statuses[i].ready
  {
    if statuses != [] {
      NoneReadyIff(statuses[1..]);
      assert forall i :: 1 <= i < |statuses| ==> statuses[i] == statuses[1..][i - 1];
    }
  }

  /** With non-negative restart counts the sum is non-negative, and zero exactly when every count is. */
  lemma {:induction false} SumRestartsBounds(statuses: seq<ContainerStatus>)
    requires forall i :: 0 <= i < |statuses| ==> statuses[i].restartCount >= 0
    ensures SumRestarts(statuses) >= 0
    ensures SumRestarts(statuses) == 0 <==> forall i :: 0 <= i < |statuses| ==> statuses[i].restartCount == 0
  {
    if statuses != [] {
      assert forall i :: 1 <= i < |statuses| ==> statuses[i] == statuses[1..][i - 1];
      SumRestartsBounds(statuses[1..]);
    }
  }

  /** A pod without container statuses and without a node. */
  lemma BarePod(name: string, namespace: string, phase: string, statuses: Option<seq<ContainerStatus>>)
    requires statuses == None || statuses == Some([])
    ensures ToPodInfo(Pod(name, namespace, phase, None, statuses))
         == PodInfo(name, namespace, phase, "unscheduled", 0, 0, 0)
  {
  }

  /** The records of a pod list, in order. */
  function PodInfos(items: seq<Pod>): seq<PodInfo> {
    seq(|items|, i requires 0 <= i < |items| => ToPodInfo(items[i]))
  }

  /** The loop over `pod_list.items` appending one record per pod. */
  method MapPods(items: seq<Pod>) returns (pods: seq<PodInfo>)
    ensures |pods| == |items|
    ensures forall i :: 0 <= i < |items| ==> pods[i] == ToPodInfo(items[i])
  {
    pods := [];
    for i := 0 to |items|
      invariant |pods| == i
      invariant forall k :: 0 <= k < i ==> pods[k] == ToPodInfo(items[k])
    {
      pods := pods + [ToPodInfo(items[i])];
    }
  }

  /** The list call made for the flags. */
  function RequestFor(namespace: string, allNamespaces: bool): ListRequest {
    if allNamespaces then AllNamespaces else InNamespace(namespace)
  }

  /** The description of what was listed. */
  function Scope(namespace: string, allNamespaces: bool): string {
    if allNamespaces then "ALL namespaces" else "namespace '" + namespace + "'"
  }

  /** The text for an empty listing. */
  function NoPodsMessage(scope: string, identity: string): string {
    "No pods found in " + scope + "\nIdentity: " + identity
  }

  /** The first element of a non-empty listing. */
  function Header(scope: string, identity: string): string {
    "Pods in " + scope + "\nIdentity: " + identity + "\n"
  }

  /** The bullet of a pod block, in the byte-for-byte form the source carries (U+00E2 U+20AC U+00A2). */
  const Bullet: string := "  \U{00E2}\U{20AC}\U{00A2} "

  function BulletLine(pod: PodInfo): string {
    Bullet + pod.name + " (ns: " + pod.namespace + ")"
  }

  function StatusLine(pod: PodInfo): string {
    "    Status: " + pod.phase + " | Node: " + pod.node
  }

  function ReadyLine(pod: PodInfo): string {
    "    Ready: " + IntToString(pod.ready) + "/" + IntToString(pod.total) + " | Restarts: " + IntToString(pod.restarts)
  }

  /** The three-line block of one pod. */
  function Block(pod: PodInfo): string {
    BulletLine(pod) + "\n" + StatusLine(pod) + "\n" + ReadyLine(pod)
  }

  /** One block per pod, in order. */
  function Blocks(pods: seq<PodInfo>): (blocks: seq<string>)
    ensures |blocks| == |pods|
  {
    if pods == [] then [] else [Block(pods[0])] + Blocks(pods[1..])
  }

  lemma BlocksOfPrefix(pods: seq<PodInfo>, i: nat)
    requires i < |pods|
    ensures Blocks(pods[..i + 1]) == Blocks(pods[..i]) + [Block(pods[i])]
  {
    assert pods[..i + 1] == pods[..i] + [pods[i]];
    BlocksSnoc(pods[..i], pods[i]);
  }

  /** The blocks of a list with one more pod end with that pod's block. */
  lemma {:induction false} BlocksSnoc(pods: seq<PodInfo>, pod: PodInfo)
    ensures Blocks(pods + [pod]) == Blocks(pods) + [Block(pod)]
  {
    if pods == [] {
      assert pods + [pod] == [pod];
    } else {
      var longer := pods + [pod];
      assert longer[0] == pods[0] && longer[1..] == pods[1..] + [pod];
      BlocksSnoc(pods[1..], pod);
      assert Blocks(longer) == [Block(pods[0])] + (Blocks(pods[1..]) + [Block(pod)]);
    }
  }

  /** The text `format_pods_output(pods, scope, identity)` returns. */
  function Render(pods: seq<PodInfo>, scope: string, identity: string): string {
    if |pods| == 0 then NoPodsMessage(scope, identity)
    else Join("\n", [Header(scope, identity)] + Blocks(pods))
  }

  /** `format_pods_output`: the header, then one block per pod appended in a loop, joined by line breaks. */
  method FormatPodsOutput(pods: seq<PodInfo>, scope: string, identity: string) returns (out: string)
    ensures |pods| == 0 ==> out == "No pods found in " + scope + "\nIdentity: " + identity
    ensures out == Render(pods, scope, identity)
  {
    if |pods| == 0 {
      return NoPodsMessage(scope, identity);
    }
    var lines := [Header(scope, identity)];
    for i := 0 to |pods|
      invariant lines == [Header(scope, identity)] + Blocks(pods[..i])
    {
      BlocksOfPrefix(pods, i);
      lines := lines + [Block(pods[i])];
    }
    assert pods[..|pods|] == pods;
    out := Join("\n", lines);
  }

  /** A single pod is rendered as the header, a line break and its block. */
  lemma RenderSingle(pod: PodInfo, scope: string, identity: string)
    ensures Render([pod], scope, identity) == "Pods in " + scope + "\nIdentity: " + identity + "\n" + "\n" + Block(pod)
  {
    var parts := [Header(scope, identity)] + Blocks([pod]);
    assert [pod][1..] == [];
    assert parts == [Header(scope, identity), Block(pod)];
    assert parts[1..] == [Block(pod)];
    assert Join("\n", parts[1..]) == Block(pod);
    assert Render([pod], scope, identity) == Header(scope, identity) + "\n" + Block(pod);
  }

  /** One more pod at the end of the list adds a line break and its block at the end of the text. */
  lemma RenderSnoc(pods: seq<PodInfo>, pod: PodInfo, scope: string, identity: string)
    requires |pods| > 0
    ensures Render(pods + [pod], scope, identity) == Render(pods, scope, identity) + "\n" + Block(pod)
  {
    var before := [Header(scope, identity)] + Blocks(pods);
    BlocksSnoc(pods, pod);
    assert [Header(scope, identity)] + Blocks(pods + [pod]) == before + [Block(pod)];
    JoinSnoc("\n", before, Block(pod));
  }

  /** The text fields of a record hold no line break. */
  predicate InfoNoBreak(pod: PodInfo) {
    NoBreak(pod.name) && NoBreak(pod.namespace) && NoBreak(pod.phase) && NoBreak(pod.node)
  }

  /** The lines of the pod blocks, three per pod, in order. */
  function PodLines(pods: seq<PodInfo>): seq<string> {
    if pods == [] then [] else [BulletLine(pods[0]), StatusLine(pods[0]), ReadyLine(pods[0])] + PodLines(pods[1..])
  }

  lemma BulletNoBreak()
    ensures NoBreak(Bullet)
  {
    assert Bullet == [' ', ' ', '\U{00E2}', '\U{20AC}', '\U{00A2}', ' '];
  }

  lemma PodLinesNoBreak(pod: PodInfo)
    requires InfoNoBreak(pod)
    ensures NoBreak(BulletLine(pod)) && NoBreak(StatusLine(pod)) && NoBreak(ReadyLine(pod))
  {
    BulletNoBreak();
    IntToStringNoBreak(pod.ready);
    IntToStringNoBreak(pod.total);
    IntToStringNoBreak(pod.restarts);
  }

  lemma BlockLines(pod: PodInfo)
    requires InfoNoBreak(pod)
    ensures Lines(Block(pod)) == [BulletLine(pod), StatusLine(pod), ReadyLine(pod)]
  {
    var a, b, c := BulletLine(pod), StatusLine(pod), ReadyLine(pod);
    PodLinesNoBreak(pod);
    LinesNoBreak(a);
    LinesNoBreak(b);
    LinesNoBreak(c);
    LinesConcat(b, c);
    assert Block(pod) == a + "\n" + (b + "\n" + c);
    LinesConcat(a, b + "\n" + c);
  }

  lemma BlocksOfTail(pods: seq<PodInfo>)
    requires pods != []
    ensures Blocks(pods)[0] == Block(pods[0]) && Blocks(pods)[1..] == Blocks(pods[1..])
  {
    assert ([Block(pods[0])] + Blocks(pods[1..]))[1..] == Blocks(pods[1..]);
  }

  lemma {:induction false} BlocksLines(pods: seq<PodInfo>)
    requires forall i :: 0 <= i < |pods| ==> InfoNoBreak(pods[i])
    ensures LinesOfAll(Blocks(pods)) == PodLines(pods)
  {
    if pods != [] {
      BlocksOfTail(pods);
      BlockLines(pods[0]);
      BlocksLines(pods[1..]);
    }
  }

  lemma {:induction false} PodLinesLength(pods: seq<PodInfo>)
    ensures |PodLines(pods)| == 3 * |pods|
  {
    if pods != [] {
      PodLinesLength(pods[1..]);
    }
  }

  /** Line `3 * k` of the pod lines opens the block of pod `k`. */
  lemma PodLinesAt(pods: seq<PodInfo>, k: nat)
    requires k < |pods|
    ensures |PodLines(pods)| == 3 * |pods|
    ensures PodLines(pods)[3 * k] == BulletLine(pods[k])
    ensures PodLines(pods)[3 * k + 1] == StatusLine(pods[k])
    ensures PodLines(pods)[3 * k + 2] == ReadyLine(pods[k])
  {
    PodLinesLength(pods);
    PodTripleAt(pods, k);
    SliceItems(PodLines(pods), 3 * k, BulletLine(pods[k]), StatusLine(pods[k]), ReadyLine(pods[k]));
  }

  /** The three lines of pod `k` sit at positions `3 * k` to `3 * k + 2`. */
  lemma {:induction false} PodTripleAt(pods: seq<PodInfo>, k: nat)
    requires k < |pods|
    ensures 3 * k + 3 <= |PodLines(pods)|
    ensures PodLines(pods)[3 * k..3 * k + 3] == [BulletLine(pods[k]), StatusLine(pods[k]), ReadyLine(pods[k])]
    decreases |pods|, 1
  {
    if k == 0 {
      PodTripleHead(pods);
    } else {
      PodTripleNext(pods, k);
    }
  }

  /** The first pod's lines open the list. */
  lemma PodTripleHead(pods: seq<PodInfo>)
    requires |pods| > 0
    ensures 3 <= |PodLines(pods)|
    ensures PodLines(pods)[0..3] == [BulletLine(pods[0]), StatusLine(pods[0]), ReadyLine(pods[0])]
  {
    PodLinesCons(pods);
    SliceAfter(PodLines(pods), [BulletLine(pods[0]), StatusLine(pods[0]), ReadyLine(pods[0])], PodLines(pods[1..]));
  }

  /** The lines of pod `k` of a list are those of pod `k - 1` of its tail. */
  lemma {:induction false} PodTripleNext(pods: seq<PodInfo>, k: nat)
    requires 0 < k < |pods|
    ensures 3 * k + 3 <= |PodLines(pods)|
    ensures PodLines(pods)[3 * k..3 * k + 3] == [BulletLine(pods[k]), StatusLine(pods[k]), ReadyLine(pods[k])]
    decreases |pods|, 0
  {
    PodTripleAt(pods[1..], k - 1);
    TailTriple(pods, k);
    ShiftTriple(pods, k);
  }

  /** Pod `k - 1` of the tail is pod `k` of the list. */
  lemma TailTriple(pods: seq<PodInfo>, k: nat)
    requires 0 < k < |pods|
    requires 3 * (k - 1) + 3 <= |PodLines(pods[1..])|
    requires PodLines(pods[1..])[3 * (k - 1)..3 * (k - 1) + 3]
             == [BulletLine(pods[1..][k - 1]), StatusLine(pods[1..][k - 1]), ReadyLine(pods[1..][k - 1])]
    ensures 3 * k <= |PodLines(pods[1..])|
    ensures PodLines(pods[1..])[3 * k - 3..3 * k] == [BulletLine(pods[k]), StatusLine(pods[k]), ReadyLine(pods[k])]
  {
    SameSlice(PodLines(pods[1..]), 3 * (k - 1), 3 * (k - 1) + 3, 3 * k - 3, 3 * k);
    assert pods[1..][k - 1] == pods[k];
  }

  /** Lines `3 * k - 3` to `3 * k - 1` of the tail are lines `3 * k` to `3 * k + 2` of the list. */
  lemma ShiftTriple(pods: seq<PodInfo>, k: nat)
    requires 0 < k < |pods|
    requires 3 * k <= |PodLines(pods[1..])|
    requires PodLines(pods[1..])[3 * k - 3..3 * k] == [BulletLine(pods[k]), StatusLine(pods[k]), ReadyLine(pods[k])]
    ensures 3 * k + 3 <= |PodLines(pods)|
    ensures PodLines(pods)[3 * k..3 * k + 3] == [BulletLine(pods[k]), StatusLine(pods[k]), ReadyLine(pods[k])]
  {
    PodLinesCons(pods);
    SliceAfterThree(PodLines(pods), [BulletLine(pods[0]), StatusLine(pods[0]), ReadyLine(pods[0])],
                    PodLines(pods[1..]), 3 * k, [BulletLine(pods[k]), StatusLine(pods[k]), ReadyLine(pods[k])]);
  }

  /** The lines of a non-empty list are those of its first pod followed by those of the rest. */
  lemma PodLinesCons(pods: seq<PodInfo>)
    requires |pods| > 0
    ensures PodLines(pods) == [BulletLine(pods[0]), StatusLine(pods[0]), ReadyLine(pods[0])] + PodLines(pods[1..])
  {
  }

  /** Slices between equal bounds are equal. */
  lemma SameSlice(s: seq<string>, a: int, b: int, c: int, d: int)
    requires 0 <= a <= b <= |s| && a == c && b == d
    ensures s[a..b] == s[c..d]
  {
  }

  /** The lines of a slice of three are found at its start and the two places after. */
  lemma SliceItems(s: seq<string>, i: nat, x: string, y: string, z: string)
    requires i + 3 <= |s| && s[i..i + 3] == [x, y, z]
    ensures s[i] == x && s[i + 1] == y && s[i + 2] == z
  {
    assert s[i..i + 3][0] == s[i] && s[i..i + 3][1] == s[i + 1] && s[i..i + 3][2] == s[i + 2];
  }

  /** A list of lines opens with its first three. */
  lemma SliceAfter(whole: seq<string>, first: seq<string>, rest: seq<string>)
    requires whole == first + rest && |first| == 3
    ensures 3 <= |whole| && whole[0..3] == first
  {
  }

  /** Past a prefix of three lines, a slice is found three places further on. */
  lemma SliceAfterThree(whole: seq<string>, first: seq<string>, rest: seq<string>, i: nat, t: seq<string>)
    requires whole == first + rest && |first| == 3 && 3 <= i <= |rest|
    requires rest[i - 3..i] == t
    ensures i + 3 <= |whole| && whole[i..i + 3] == t
  {
    assert whole[i..i + 3] == rest[i - 3..i];
  }

  /** The header of a listing is two lines followed by an empty one. */
  lemma HeaderLines(scope: string, identity: string)
    requires NoBreak(scope) && NoBreak(identity)
    ensures Lines(Header(scope, identity)) == ["Pods in " + scope, "Identity: " + identity, ""]
  {
    var a, b := "Pods in " + scope, "Identity: " + identity;
    assert Header(scope, identity) == a + "\n" + (b + "\n" + "");
    assert NoBreak(a) by {
      assert a == "Pods in " + scope;
      assert forall i :: 0 <= i < |a| ==> a[i] != '\n' by {
        forall i | 0 <= i < |a| ensures a[i] != '\n' {
          if i >= 8 { assert a[i] == scope[i - 8]; }
        }
      }
    }
    assert NoBreak(b) by {
      forall i | 0 <= i < |b| ensures b[i] != '\n' {
        if i >= 10 { assert b[i] == identity[i - 10]; }
      }
    }
    LinesNoBreak(a);
    LinesNoBreak(b);
    LinesNoBreak("");
    LinesConcat(b, "");
    LinesConcat(a, b + "\n" + "");
  }

  /**
   * When no field holds a line break, the text of a non-empty listing splits into
   * the two header lines, an empty line, and three lines per pod in input order.
   */
  lemma RenderLines(pods: seq<PodInfo>, scope: string, identity: string)
    requires |pods| > 0 && NoBreak(scope) && NoBreak(identity)
    requires forall i :: 0 <= i < |pods| ==> InfoNoBreak(pods[i])
    ensures Lines(Render(pods, scope, identity))
         == ["Pods in " + scope, "Identity: " + identity, ""] + PodLines(pods)
  {
    var h := Header(scope, identity);
    var parts := [h] + Blocks(pods);
    LinesOfJoin(parts);
    assert parts[1..] == Blocks(pods);
    assert LinesOfAll(parts) == Lines(h) + LinesOfAll(Blocks(pods));
    BlocksLines(pods);
    HeaderLines(scope, identity);
  }

  /** Lines `3 + 3 * k` to `5 + 3 * k` of a non-empty listing are the block of pod `k`. */
  lemma RenderLineAt(pods: seq<PodInfo>, scope: string, identity: string, k: nat)
    requires k < |pods| && NoBreak(scope) && NoBreak(identity)
    requires forall i :: 0 <= i < |pods| ==> InfoNoBreak(pods[i])
    ensures var lines := Lines(Render(pods, scope, identity));
      && |lines| == 3 + 3 * |pods|
      && lines[3 + 3 * k] == BulletLine(pods[k])
      && lines[4 + 3 * k] == StatusLine(pods[k])
      && lines[5 + 3 * k] == ReadyLine(pods[k])
  {
    RenderLines(pods, scope, identity);
    ListingLineAt(Lines(Render(pods, scope, identity)), ["Pods in " + scope, "Identity: " + identity, ""], pods, k);
  }

  /** Below a three-line header, the k-th pod's lines sit at `3 + 3 * k` to `5 + 3 * k`. */
  lemma ListingLineAt(whole: seq<string>, head: seq<string>, pods: seq<PodInfo>, k: nat)
    requires whole == head + PodLines(pods) && |head| == 3 && k < |pods|
    ensures |whole| == 3 + 3 * |pods|
    ensures whole[3 + 3 * k] == BulletLine(pods[k])
    ensures whole[4 + 3 * k] == StatusLine(pods[k])
    ensures whole[5 + 3 * k] == ReadyLine(pods[k])
  {
    PodLinesAt(pods, k);
    AfterHeader(whole, head, PodLines(pods), |pods|, k, BulletLine(pods[k]), StatusLine(pods[k]), ReadyLine(pods[k]));
  }

  /** Below a header of three lines, line `3 * k` of a body of `3 * n` lines is line `3 + 3 * k` of the whole. */
  lemma AfterHeader(whole: seq<string>, head: seq<string>, body: seq<string>, n: nat, k: nat, x: string, y: string, z: string)
    requires whole == head + body && |head| == 3 && |body| == 3 * n && k < n
    requires body[3 * k] == x && body[3 * k + 1] == y && body[3 * k + 2] == z
    ensures |whole| == 3 + 3 * n
    ensures whole[3 + 3 * k] == x && whole[4 + 3 * k] == y && whole[5 + 3 * k] == z
  {
  }

  /** An empty listing is two lines. */
  lemma RenderEmptyLines(scope: string, identity: string)
    requires NoBreak(scope) && NoBreak(identity)
    ensures Render([], scope, identity) == "No pods found in " + scope + "\nIdentity: " + identity
    ensures Lines(Render([], scope, identity)) == ["No pods found in " + scope, "Identity: " + identity]
  {
    var a, b := "No pods found in " + scope, "Identity: " + identity;
    assert Render([], scope, identity) == a + "\n" + b;
    assert NoBreak(a) by {
      forall i | 0 <= i < |a| ensures a[i] != '\n' {
        if i >= 17 { assert a[i] == scope[i - 17]; }
      }
    }
    assert NoBreak(b) by {
      forall i | 0 <= i < |b| ensures b[i] != '\n' {
        if i >= 10 { assert b[i] == identity[i - 10]; }
      }
    }
    LinesNoBreak(a);
    LinesNoBreak(b);
    LinesConcat(a, b);
  }

  /** The message each exception class turns into. */
  function FaultMessage(fault: Fault): string {
    match fault
    case ApiFault(status, reason, body, _) =>
      "Error: API call failed with status " + IntToString(status) + ": " + reason + "\nBody: " + body
    case ConfigFault(text) => "Error: Could not configure Kubernetes client. " + text
    case OtherFault(text) => "An unexpected error occurred: " + text
  }

  /** The text `get_pods_tool(namespace, all_namespaces, context)` returns against `cluster`. */
  function PodsReport(cluster: Cluster, namespace: string, allNamespaces: bool, context: Option<string>): string {
    match cluster.connect(context)
    case Fail(fault) => FaultMessage(fault)
    case Pass =>
      match Client.Identity(cluster.kubeconfig, context)
      case Failure(fault) => FaultMessage(fault)
      case Success(identity) =>
        match cluster.listPods(RequestFor(namespace, allNamespaces))
        case Failure(fault) => FaultMessage(fault)
        case Success(items) => Render(PodInfos(items), Scope(namespace, allNamespaces), identity)
  }

  /** `get_pods_tool`: never raises; every exception becomes its message. */
  method GetPodsTool(cluster: Cluster, namespace: string := Config.DefaultNamespace,
                     allNamespaces: bool := false, context: Option<string> := None)
    returns (out: string)
    ensures out == PodsReport(cluster, namespace, allNamespaces, context)
  {
    var connected := cluster.connect(context);
    if connected.Fail? {
      return FaultMessage(connected.fault);
    }
    var identity := Client.GetIdentity(cluster.kubeconfig, context);
    if identity.Failure? {
      return FaultMessage(identity.error);
    }
    var listed := cluster.listPods(RequestFor(namespace, allNamespaces));
    if listed.Failure? {
      return FaultMessage(listed.error);
    }
    var scope := Scope(namespace, allNamespaces);
    var pods := MapPods(listed.value);
    assert pods == PodInfos(listed.value);
    out := FormatPodsOutput(pods, scope, identity.value);
  }

  /** The exception `get_pods_tool` catches, if any: from the client, from the identity, or from the list call. */
  function RaisedFault(cluster: Cluster, namespace: string, allNamespaces: bool, context: Option<string>): Option<Fault> {
    match cluster.connect(context)
    case Fail(fault) => Some(fault)
    case Pass =>
      match Client.Identity(cluster.kubeconfig, context)
      case Failure(fault) => Some(fault)
      case Success(_) =>
        match cluster.listPods(RequestFor(namespace, allNamespaces))
        case Failure(fault) => Some(fault)
        case Success(_) => None
  }

  /** The exception class an output of `get_pods_tool` reports, read off its text; none for a listing. */
  function ReportedKind(out: string): Option<FaultKind> {
    if StartsWith(out, "Error: API call failed with status ") then Some(ApiKind)
    else if StartsWith(out, "Error: Could not configure Kubernetes client. ") then Some(ConfigKind)
    else if StartsWith(out, "An unexpected error occurred: ") then Some(OtherKind)
    else None
  }

  /** Every exception, whichever call raised it, is returned as the message of its class. */
  lemma ReportOnFault(cluster: Cluster, namespace: string, allNamespaces: bool, context: Option<string>, fault: Fault)
    requires RaisedFault(cluster, namespace, allNamespaces, context) == Some(fault)
    ensures var out := PodsReport(cluster, namespace, allNamespaces, context);
      match fault
      case ApiFault(status, reason, body, _) =>
        out == "Error: API call failed with status " + IntToString(status) + ": " + reason + "\nBody: " + body
      case ConfigFault(text) => out == "Error: Could not configure Kubernetes client. " + text
      case OtherFault(text) => out == "An unexpected error occurred: " + text
  {
  }

  /** A non-empty listing begins with its header. */
  lemma RenderStartsWithHeader(pods: seq<PodInfo>, scope: string, identity: string)
    requires |pods| > 0
    ensures Render(pods, scope, identity) == Header(scope, identity) + "\n" + Join("\n", Blocks(pods))
  {
    var parts := [Header(scope, identity)] + Blocks(pods);
    assert parts[1..] == Blocks(pods);
  }

  /** An error message names the class of its exception. */
  lemma FaultMessageKind(fault: Fault)
    ensures ReportedKind(FaultMessage(fault)) == Some(fault.Kind())
  {
    match fault {
      case ApiFault(status, reason, body, _) =>
        var rest := IntToString(status) + ": " + reason + "\nBody: " + body;
        assert FaultMessage(fault) == "Error: API call failed with status " + rest;
        ApiMessageKind(rest);
      case ConfigFault(text) => ConfigMessageKind(text);
      case OtherFault(text) => OtherMessageKind(text);
    }
  }

  /** An API-error message is read back as an API error. */
  lemma ApiMessageKind(rest: string)
    ensures ReportedKind("Error: API call failed with status " + rest) == Some(ApiKind)
  {
    PrefixOf("Error: API call failed with status ", rest);
  }

  /** A configuration-error message is read back as a configuration error. */
  lemma ConfigMessageKind(text: string)
    ensures ReportedKind("Error: Could not configure Kubernetes client. " + text) == Some(ConfigKind)
  {
    var out := "Error: Could not configure Kubernetes client. " + text;
    PrefixOf("Error: Could not configure Kubernetes client. ", text);
    NotStartsWith(out, "Error: API call failed with status ", 7);
  }

  /** The message of any other exception is read back as that class. */
  lemma OtherMessageKind(text: string)
    ensures ReportedKind("An unexpected error occurred: " + text) == Some(OtherKind)
  {
    var out := "An unexpected error occurred: " + text;
    PrefixOf("An unexpected error occurred: ", text);
    NotStartsWith(out, "Error: API call failed with status ", 0);
    NotStartsWith(out, "Error: Could not configure Kubernetes client. ", 0);
  }

  /** A listing, empty or not, names no exception class. */
  lemma RenderKind(pods: seq<PodInfo>, scope: string, identity: string)
    ensures ReportedKind(Render(pods, scope, identity)) == None
  {
    var out := Render(pods, scope, identity);
    if |pods| == 0 {
      assert out[0] == 'N';
    } else {
      RenderStartsWithHeader(pods, scope, identity);
      assert Header(scope, identity)[0] == 'P';
      assert out[0] == 'P';
    }
    NotStartsWith(out, "Error: API call failed with status ", 0);
    NotStartsWith(out, "Error: Could not configure Kubernetes client. ", 0);
    NotStartsWith(out, "An unexpected error occurred: ", 0);
  }

  /**
   * The text tells the outcome apart: a listing reports no exception class, and a
   * failure reports exactly the class of the exception raised.
   */
  lemma ReportedKindOfReport(cluster: Cluster, namespace: string, allNamespaces: bool, context: Option<string>)
    ensures ReportedKind(PodsReport(cluster, namespace, allNamespaces, context))
         == match RaisedFault(cluster, namespace, allNamespaces, context)
            case None => None
            case Some(fault) => Some(fault.Kind())
  {
    match RaisedFault(cluster, namespace, allNamespaces, context)
    case Some(fault) =>
      assert PodsReport(cluster, namespace, allNamespaces, context) == FaultMessage(fault);
      FaultMessageKind(fault);
    case None =>
      var identity := Client.Identity(cluster.kubeconfig, context).value;
      var items := cluster.listPods(RequestFor(namespace, allNamespaces)).value;
      ListingReport(cluster, namespace, allNamespaces, context, identity, items);
      RenderKind(PodInfos(items), Scope(namespace, allNamespaces), identity);
  }

  /** With `all_namespaces` set, the namespace argument changes nothing. */
  lemma AllNamespacesIgnoresNamespace(cluster: Cluster, namespace1: string, namespace2: string, context: Option<string>)
    ensures PodsReport(cluster, namespace1, true, context) == PodsReport(cluster, namespace2, true, context)
    ensures RequestFor(namespace1, true) == AllNamespaces
    ensures Scope(namespace1, true) == "ALL namespaces"
  {
  }

  /**
   * Without `all_namespaces`, only the listing of the named namespace is consulted,
   * and the scope names it.
   */
  lemma NamespacedListsOnlyThatNamespace(cluster1: Cluster, cluster2: Cluster, namespace: string, context: Option<string>)
    requires cluster1.connect(context) == cluster2.connect(context)
    requires cluster1.kubeconfig == cluster2.kubeconfig
    requires cluster1.listPods(InNamespace(namespace)) == cluster2.listPods(InNamespace(namespace))
    ensures PodsReport(cluster1, namespace, false, context) == PodsReport(cluster2, namespace, false, context)
    ensures Scope(namespace, false) == "namespace '" + namespace + "'"
  {
  }

  /** An upstream pod none of whose text fields holds a line break. */
  predicate PodNoBreak(pod: Pod) {
    NoBreak(pod.name) && NoBreak(pod.namespace) && NoBreak(pod.phase)
    && (pod.nodeName.Some? ==> NoBreak(pod.nodeName.value))
  }

  /** When every call succeeds, the output is the rendering of the listed pods' records. */
  lemma ListingReport(cluster: Cluster, namespace: string, allNamespaces: bool, context: Option<string>,
                      identity: string, items: seq<Pod>)
    requires cluster.connect(context) == Pass
    requires Client.Identity(cluster.kubeconfig, context) == Success(identity)
    requires cluster.listPods(RequestFor(namespace, allNamespaces)) == Success(items)
    ensures PodsReport(cluster, namespace, allNamespaces, context)
         == Render(PodInfos(items), Scope(namespace, allNamespaces), identity)
  {
  }

  lemma ScopeNoBreak(namespace: string, allNamespaces: bool)
    requires !allNamespaces ==> NoBreak(namespace)
    ensures NoBreak(Scope(namespace, allNamespaces))
  {
    var scope := Scope(namespace, allNamespaces);
    if !allNamespaces {
      forall i | 0 <= i < |scope| ensures scope[i] != '\n' {
        if 11 <= i < 11 + |namespace| { assert scope[i] == namespace[i - 11]; }
      }
    }
  }

  lemma InfosNoBreak(items: seq<Pod>)
    requires forall i :: 0 <= i < |items| ==> PodNoBreak(items[i])
    ensures forall i :: 0 <= i < |items| ==> InfoNoBreak(PodInfos(items)[i])
  {
    forall i | 0 <= i < |items| ensures InfoNoBreak(PodInfos(items)[i]) {
      assert PodInfos(items)[i] == ToPodInfo(items[i]);
      assert NoBreak(Unscheduled);
    }
  }

  /**
   * A successful listing of `n > 0` pods is `3 + 3 * n` lines: the header, then for
   * the `k`-th listed pod, in order, its bullet, status and ready lines, with
   * ready at most total.
   */
  lemma ReportListsEveryPod(cluster: Cluster, namespace: string, allNamespaces: bool, context: Option<string>,
                            identity: string, items: seq<Pod>, k: nat)
    requires cluster.connect(context) == Pass
    requires Client.Identity(cluster.kubeconfig, context) == Success(identity)
    requires cluster.listPods(RequestFor(namespace, allNamespaces)) == Success(items)
    requires !allNamespaces ==> NoBreak(namespace)
    requires NoBreak(identity)
    requires forall i :: 0 <= i < |items| ==> PodNoBreak(items[i])
    requires k < |items|
    ensures var lines := Lines(PodsReport(cluster, namespace, allNamespaces, context));
      var info := ToPodInfo(items[k]);
      && |lines| == 3 + 3 * |items|
      && lines[3 + 3 * k] == BulletLine(info)
      && lines[4 + 3 * k] == StatusLine(info)
      && lines[5 + 3 * k] == ReadyLine(info)
      && info.ready <= info.total
  {
    var pods := PodInfos(items);
    var scope := Scope(namespace, allNamespaces);
    ScopeNoBreak(namespace, allNamespaces);
    InfosNoBreak(items);
    ListingReport(cluster, namespace, allNamespaces, context, identity, items);
    RenderLineAt(pods, scope, identity, k);
    assert pods[k] == ToPodInfo(items[k]);
  }

  /** The ready line of a pod that is not ready and has restarted three times. */
  lemma NotReadyPodReadyLine(info: PodInfo)
    requires info == PodInfo("coredns-2", "kube-system", "Running", "unscheduled", 0, 1, 3)
    ensures ReadyLine(info) == "    Ready: 0/1 | Restarts: 3"
  {
    assert IntToString(0) == "0" && IntToString(1) == "1" && IntToString(3) == "3";
  }

  lemma KubeSystemRecords(pod1: Pod, pod2: Pod, info1: PodInfo, info2: PodInfo)
    requires pod1 == Pod("coredns-1", "kube-system", "Running", Some("n1"), Some([ContainerStatus(true, 0)]))
    requires pod2 == Pod("coredns-2", "kube-system", "Running", None, Some([ContainerStatus(false, 3)]))
    requires info1 == PodInfo("coredns-1", "kube-system", "Running", "n1", 1, 1, 0)
    requires info2 == PodInfo("coredns-2", "kube-system", "Running", "unscheduled", 0, 1, 3)
    ensures PodInfos([pod1, pod2]) == [info1, info2]
  {
    assert ToPodInfo(pod1) == info1;
    assert ToPodInfo(pod2) == info2;
  }

  /**
   * Two pods listed in namespace `kube-system`: one ready on node `n1`, one not ready
   * with three restarts and no node. The listing renders their two records.
   */
  lemma KubeSystemListing(cluster: Cluster, pod1: Pod, pod2: Pod)
    requires cluster.connect(None) == Pass
    requires cluster.kubeconfig == Contexts([Client.KindAdmin], Some(Client.KindAdmin))
    requires pod1 == Pod("coredns-1", "kube-system", "Running", Some("n1"), Some([ContainerStatus(true, 0)]))
    requires pod2 == Pod("coredns-2", "kube-system", "Running", None, Some([ContainerStatus(false, 3)]))
    requires cluster.listPods(InNamespace("kube-system")) == Success([pod1, pod2])
    ensures
      var info1 := PodInfo("coredns-1", "kube-system", "Running", "n1", 1, 1, 0);
      var info2 := PodInfo("coredns-2", "kube-system", "Running", "unscheduled", 0, 1, 3);
      && PodInfos([pod1, pod2]) == [info1, info2]
      && PodsReport(cluster, "kube-system", false, None)
         == Render([info1, info2], "namespace 'kube-system'", "context=kind, user=kind-admin")
  {
    var identity := "context=kind, user=kind-admin";
    Client.KindIdentity(cluster.kubeconfig);
    var info1 := PodInfo("coredns-1", "kube-system", "Running", "n1", 1, 1, 0);
    var info2 := PodInfo("coredns-2", "kube-system", "Running", "unscheduled", 0, 1, 3);
    KubeSystemRecords(pod1, pod2, info1, info2);
    assert Scope("kube-system", false) == "namespace 'kube-system'";
    ListingReport(cluster, "kube-system", false, None, identity, [pod1, pod2]);
  }
}
