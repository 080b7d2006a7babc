/**
 * The three texts `Compile` generates (compose.go): the per-journey
 * Dockerfile, the per-journey fail-fast entrypoint script, and the
 * docker-compose manifest. Each is specified as a sequence of lines joined
 * with newlines; the methods build it by appending, as the program's
 * `strings.Builder` does.
 */
module Artifacts {
  import opened Strings
  import opened Sanitize
  import opened Config

  const Indent := "  "
  const Indent2 := "    "
  const Indent3 := "      "

  /** The run id: `rand.Int32` yields a non-negative 32-bit integer. */
  type RunId = n: int | 0 <= n < 0x8000_0000

  /** The one network of a run, `khh_<id>`. */
  function NetworkName(id: RunId): string
  {
    "khh_" + Decimal(id)
  }

  // ---------------------------------------------------------------------
  // Journey Dockerfile

  const JourneyDockerfileLines: seq<string> := [
    "FROM khh_journey_base",
    "RUN mkdir /journey",
    "WORKDIR /journey",
    "COPY . /journey",
    "RUN chmod +x /journey/entrypoint.sh",
    "WORKDIR /journey",
    "ENTRYPOINT [\"/journey/entrypoint.sh\"]"
  ]

  /** The Dockerfile of every journey: the same seven lines, whatever the journey. */
  function JourneyDockerfile(): string
  {
    JoinLines(JourneyDockerfileLines)
  }

  /** Read back line by line, the journey Dockerfile is its seven fixed lines, in order. */
  lemma JourneyDockerfileLayout()
    ensures SplitLines(JourneyDockerfile()) == JourneyDockerfileLines
  {
    forall k | 0 <= k < |JourneyDockerfileLines|
      ensures NoNewline(JourneyDockerfileLines[k])
    {
    }
    SplitJoinLines(JourneyDockerfileLines);
  }

  // ---------------------------------------------------------------------
  // Entrypoint script

  const EntrypointHeader: seq<string> := ["#!/bin/sh", "set -e # exit on error"]

  /** `fmt.Sprintf("# step %d", n)` */
  function StepComment(n: nat): string
  {
    "# step " + Decimal(n)
  }

  /** Each step preceded by its numbered comment, numbering from 1. */
  function StepLines(steps: seq<string>): (lines: seq<string>)
    ensures |lines| == 2 * |steps|
  {
    if steps == [] then []
    else StepLines(steps[..|steps| - 1]) + [StepComment(|steps|), steps[|steps| - 1]]
  }

  function Entrypoint(steps: seq<string>): string
  {
    JoinLines(EntrypointHeader + StepLines(steps))
  }

  lemma JoinLinesSnoc2(lines: seq<string>, a: string, b: string)
    ensures JoinLines(lines + [a, b]) == JoinLines(lines) + a + "\n" + b + "\n"
  {
    assert (lines + [a, b])[..|lines| + 1] == lines + [a];
    assert (lines + [a])[..|lines|] == lines;
  }

  /** The entrypoint as the loop appends it, one step at a time. */
  method BuildEntrypoint(steps: seq<string>) returns (text: string)
    ensures text == Entrypoint(steps)
  {
    text := "#!/bin/sh\n";
    text := text + "set -e # exit on error\n";
    assert text == Entrypoint([]) by {
      assert EntrypointHeader + StepLines([]) == [] + ["#!/bin/sh", "set -e # exit on error"];
      JoinLinesSnoc2([], "#!/bin/sh", "set -e # exit on error");
    }
    for i := 0 to |steps|
      invariant text == Entrypoint(steps[..i])
    {
      ghost var before := EntrypointHeader + StepLines(steps[..i]);
      assert steps[..i + 1][..i] == steps[..i];
      assert EntrypointHeader + StepLines(steps[..i + 1]) == before + [StepComment(i + 1), steps[i]];
      JoinLinesSnoc2(before, StepComment(i + 1), steps[i]);
      text := text + StepComment(i + 1) + "\n";
      text := text + steps[i];
      text := text + "\n";
    }
    assert steps[..|steps|] == steps;
  }

  lemma {:induction false} StepLinesAt(steps: seq<string>)
    ensures forall i :: 0 <= i < |steps| ==>
              StepLines(steps)[2 * i] == StepComment(i + 1) && StepLines(steps)[2 * i + 1] == steps[i]
  {
    if steps != [] {
      var init := steps[..|steps| - 1];
      StepLinesAt(init);
      assert forall i :: 0 <= i < |init| ==> init[i] == steps[i];
    }
  }

  /**
   * Read back line by line, the entrypoint is the shebang, `set -e`, and
   * for step i (from 1) the comment `# step i` followed by the step itself,
   * in order: as many step comments as steps.
   */
  lemma EntrypointLayout(steps: seq<string>)
    requires forall i :: 0 <= i < |steps| ==> NoNewline(steps[i])
    ensures var lines := SplitLines(Entrypoint(steps));
            && |lines| == 2 + 2 * |steps|
            && lines[0] == "#!/bin/sh"
            && lines[1] == "set -e # exit on error"
            && forall i :: 0 <= i < |steps| ==> lines[2 + 2 * i] == StepComment(i + 1) && lines[3 + 2 * i] == steps[i]
  {
    var all := EntrypointHeader + StepLines(steps);
    StepLinesAt(steps);
    forall k | 0 <= k < |all| ensures NoNewline(all[k]) {
      if k >= 2 {
        var i := (k - 2) / 2;
        if k % 2 == 0 {
          assert k == 2 + 2 * i;
          assert all[k] == StepLines(steps)[2 * i];
          assert all[k] == StepComment(i + 1);
        } else {
          assert k == 3 + 2 * i;
          assert all[k] == StepLines(steps)[2 * i + 1];
          assert all[k] == steps[i];
        }
      }
    }
    SplitJoinLines(all);
  }

  // ---------------------------------------------------------------------
  // docker-compose manifest

  /** A service runs its image, unchanged, on the run's network. */
  function ServiceBlock(s: Service, id: RunId): seq<string>
  {
    [ Indent + SanitizeName(s.name) + ":",
      Indent2 + "image: " + s.image,
      Indent2 + "networks:",
      Indent3 + "- " + NetworkName(id) ]
  }

  /** A journey is built from its own directory and joins the run's network. */
  function JourneyBlock(j: Journey, id: RunId): seq<string>
  {
    [ Indent + "journey__" + SanitizeName(j.name) + ":",
      Indent2 + "build: ./_journeys/" + SanitizeName(j.name),
      Indent2 + "networks:",
      Indent3 + "- " + NetworkName(id) ]
  }

  function ServiceBlocks(services: seq<Service>, id: RunId): (lines: seq<string>)
    ensures |lines| == 4 * |services|
  {
    if services == [] then []
    else ServiceBlocks(services[..|services| - 1], id) + ServiceBlock(services[|services| - 1], id)
  }

  function JourneyBlocks(journeys: seq<Journey>, id: RunId): (lines: seq<string>)
    ensures |lines| == 4 * |journeys|
  {
    if journeys == [] then []
    else JourneyBlocks(journeys[..|journeys| - 1], id) + JourneyBlock(journeys[|journeys| - 1], id)
  }

  function ManifestLines(services: seq<Service>, journeys: seq<Journey>, id: RunId): seq<string>
  {
    ["services:"] + ServiceBlocks(services, id) + JourneyBlocks(journeys, id)
    + ["networks:", Indent + NetworkName(id) + ":"]
  }

  function Manifest(services: seq<Service>, journeys: seq<Journey>, id: RunId): string
  {
    JoinLines(ManifestLines(services, journeys, id))
  }

  lemma JoinLinesSnoc4(lines: seq<string>, block: seq<string>)
    requires |block| == 4
    ensures JoinLines(lines + block)
            == JoinLines(lines) + block[0] + "\n" + block[1] + "\n" + block[2] + "\n" + block[3] + "\n"
  {
    JoinLinesAppend(lines, block);
    assert block[..3][..2] == block[..2];
    assert block[..2][..1] == block[..1];
    assert block[..1][..0] == [];
    assert JoinLines(block[..1]) == block[0] + "\n";
    assert JoinLines(block[..2]) == block[0] + "\n" + block[1] + "\n";
    assert JoinLines(block[..3]) == block[0] + "\n" + block[1] + "\n" + block[2] + "\n";
    assert block[..4] == block;
  }

  lemma AppendLine2(t: string, a: string, b: string)
    ensures t + a + (b + "\n") == t + (a + b) + "\n"
  {
  }

  lemma AppendLine3(t: string, a: string, b: string, c: string)
    ensures t + a + b + (c + "\n") == t + (a + b + c) + "\n"
  {
  }

  lemma AppendLine4(t: string, a: string, b: string, c: string)
    ensures t + a + b + c + "\n" == t + (a + b + c) + "\n"
  {
  }

  lemma ServiceBlockAppended(text: string, before: seq<string>, s: Service, id: RunId)
    requires text == JoinLines(before)
    ensures text + Indent + SanitizeName(s.name) + ":\n" + Indent2 + "image: " + s.image + "\n"
            + Indent2 + "networks:\n" + Indent3 + "- " + NetworkName(id) + "\n"
            == JoinLines(before + ServiceBlock(s, id))
  {
    var name, net := SanitizeName(s.name), NetworkName(id);
    JoinLinesSnoc4(before, ServiceBlock(s, id));
    assert ":\n" == ":" + "\n";
    assert "networks:\n" == "networks:" + "\n";
    var t1 := text + Indent + name + ":\n";
    AppendLine3(text, Indent, name, ":");
    var t2 := t1 + Indent2 + "image: " + s.image + "\n";
    AppendLine4(t1, Indent2, "image: ", s.image);
    var t3 := t2 + Indent2 + "networks:\n";
    AppendLine2(t2, Indent2, "networks:");
    AppendLine4(t3, Indent3, "- ", net);
  }

  lemma JourneyBlockAppended(text: string, before: seq<string>, j: Journey, id: RunId)
    requires text == JoinLines(before)
    ensures text + Indent + "journey__" + SanitizeName(j.name) + ":\n" + Indent2 + "build: ./_journeys/"
            + SanitizeName(j.name) + "\n" + Indent2 + "networks:\n" + Indent3 + "- " + NetworkName(id) + "\n"
            == JoinLines(before + JourneyBlock(j, id))
  {
    var name, net := SanitizeName(j.name), NetworkName(id);
    JoinLinesSnoc4(before, JourneyBlock(j, id));
    assert ":\n" == ":" + "\n";
    assert "networks:\n" == "networks:" + "\n";
    var t1 := text + Indent + "journey__" + name + ":\n";
    assert t1 == text + (Indent + "journey__" + name + ":") + "\n" by {
      AppendLine3(text + Indent, "journey__", name, ":");
      AppendLine3(text, Indent, "journey__" + name, ":");
      assert Indent + ("journey__" + name) + ":" == Indent + "journey__" + name + ":";
    }
    var t2 := t1 + Indent2 + "build: ./_journeys/" + name + "\n";
    AppendLine4(t1, Indent2, "build: ./_journeys/", name);
    var t3 := t2 + Indent2 + "networks:\n";
    AppendLine2(t2, Indent2, "networks:");
    AppendLine4(t3, Indent3, "- ", net);
  }

  lemma ServiceBlocksSnoc(services: seq<Service>, i: nat, id: RunId)
    requires i < |services|
    ensures ["services:"] + ServiceBlocks(services[..i + 1], id)
            == ["services:"] + ServiceBlocks(services[..i], id) + ServiceBlock(services[i], id)
  {
    assert services[..i + 1][..i] == services[..i];
  }

  lemma JourneyBlocksSnoc(head: seq<string>, journeys: seq<Journey>, i: nat, id: RunId)
    requires i < |journeys|
    ensures head + JourneyBlocks(journeys[..i + 1], id)
            == head + JourneyBlocks(journeys[..i], id) + JourneyBlock(journeys[i], id)
  {
    assert journeys[..i + 1][..i] == journeys[..i];
  }

  /** The manifest as the two loops append it: services first, then journeys, then the network. */
  method BuildManifest(services: seq<Service>, journeys: seq<Journey>, id: RunId) returns (text: string)
    ensures text == Manifest(services, journeys, id)
  {
    var network := NetworkName(id);
    text := BuildServiceBlocks(services, id);
    ghost var head := ["services:"] + ServiceBlocks(services, id);
    text := AppendJourneyBlocks(text, head, journeys, id);
    ghost var body := head + JourneyBlocks(journeys, id);
    assert ManifestLines(services, journeys, id) == body + ["networks:", Indent + network + ":"];
    JoinLinesSnoc2(body, "networks:", Indent + network + ":");
    ghost var t0 := text;
    text := text + "networks:\n";
    text := text + Indent;
    text := text + network + ":\n";
    assert text == t0 + "networks:" + "\n" + (Indent + network + ":") + "\n";
  }

  /** The `services:` header and the first loop: one block per service. */
  method BuildServiceBlocks(services: seq<Service>, id: RunId) returns (text: string)
    ensures text == JoinLines(["services:"] + ServiceBlocks(services, id))
  {
    var network := NetworkName(id);
    text := "services:\n";
    assert text == JoinLines(["services:"] + ServiceBlocks(services[..0], id)) by {
      assert ["services:"] + ServiceBlocks(services[..0], id) == [] + ["services:"];
    }
    for i := 0 to |services|
      invariant text == JoinLines(["services:"] + ServiceBlocks(services[..i], id))
    {
      var service := services[i];
      ghost var t0 := text;
      ServiceBlocksSnoc(services, i, id);
      ServiceBlockAppended(t0, ["services:"] + ServiceBlocks(services[..i], id), service, id);
      var name := SanitizeName(service.name);
      text := text + Indent;
      text := text + name;
      text := text + ":\n";
      text := text + Indent2;
      text := text + "image: ";
      text := text + service.image;
      text := text + "\n";
      text := text + Indent2;
      text := text + "networks:\n";
      text := text + Indent3;
      text := text + "- " + network + "\n";
      assert text == t0 + Indent + name + ":\n" + Indent2 + "image: " + service.image + "\n"
                     + Indent2 + "networks:\n" + Indent3 + "- " + network + "\n";
    }
    assert services[..|services|] == services;
  }

  /** The second loop: one block per journey, appended after the lines `head` already written. */
  method AppendJourneyBlocks(start: string, ghost head: seq<string>, journeys: seq<Journey>, id: RunId)
    returns (text: string)
    requires start == JoinLines(head)
    ensures text == JoinLines(head + JourneyBlocks(journeys, id))
  {
    var network := NetworkName(id);
    text := start;
    assert head + JourneyBlocks(journeys[..0], id) == head;
    for i := 0 to |journeys|
      invariant text == JoinLines(head + JourneyBlocks(journeys[..i], id))
    {
      var journey := journeys[i];
      ghost var t0 := text;
      JourneyBlocksSnoc(head, journeys, i, id);
      JourneyBlockAppended(t0, head + JourneyBlocks(journeys[..i], id), journey, id);
      var name := SanitizeName(journey.name);
      text := text + Indent;
      text := text + "journey__";
      text := text + name;
      text := text + ":\n";
      text := text + Indent2;
      text := text + "build: ./_journeys/";
      text := text + name;
      text := text + "\n";
      text := text + Indent2;
      text := text + "networks:\n";
      text := text + Indent3;
      text := text + "- " + network + "\n";
      assert text == t0 + Indent + "journey__" + name + ":\n" + Indent2 + "build: ./_journeys/"
                     + name + "\n" + Indent2 + "networks:\n" + Indent3 + "- " + network + "\n";
    }
    assert journeys[..|journeys|] == journeys;
  }

  lemma {:induction false} ServiceBlocksAt(services: seq<Service>, id: RunId)
    ensures forall k :: 0 <= k < |services| ==>
              ServiceBlocks(services, id)[4 * k .. 4 * k + 4] == ServiceBlock(services[k], id)
  {
    if services != [] {
      var init := services[..|services| - 1];
      ServiceBlocksAt(init, id);
      forall k | 0 <= k < |services|
        ensures ServiceBlocks(services, id)[4 * k .. 4 * k + 4] == ServiceBlock(services[k], id)
      {
        if k < |init| {
          assert init[k] == services[k];
          assert ServiceBlocks(services, id)[4 * k .. 4 * k + 4] == ServiceBlocks(init, id)[4 * k .. 4 * k + 4];
        }
      }
    }
  }

  lemma {:induction false} JourneyBlocksAt(journeys: seq<Journey>, id: RunId)
    ensures forall k :: 0 <= k < |journeys| ==>
              JourneyBlocks(journeys, id)[4 * k .. 4 * k + 4] == JourneyBlock(journeys[k], id)
  {
    if journeys != [] {
      var init := journeys[..|journeys| - 1];
      JourneyBlocksAt(init, id);
      forall k | 0 <= k < |journeys|
        ensures JourneyBlocks(journeys, id)[4 * k .. 4 * k + 4] == JourneyBlock(journeys[k], id)
      {
        if k < |init| {
          assert init[k] == journeys[k];
          assert JourneyBlocks(journeys, id)[4 * k .. 4 * k + 4] == JourneyBlocks(init, id)[4 * k .. 4 * k + 4];
        }
      }
    }
  }

  lemma NoNewlineInWords(s: string)
    requires AllWordChars(s)
    ensures NoNewline(s)
  {
    forall i | 0 <= i < |s| ensures s[i] != '\n' {
      assert IsWordChar(s[i]);
    }
  }

  lemma NoNewlineConcat(a: string, b: string)
    requires NoNewline(a) && NoNewline(b)
    ensures NoNewline(a + b)
  {
    forall i | 0 <= i < |a + b| ensures (a + b)[i] != '\n' {
      if i >= |a| {
        assert (a + b)[i] == b[i - |a|];
      }
    }
  }

  lemma NoNewlineInBlocks(services: seq<Service>, journeys: seq<Journey>, id: RunId)
    requires forall k :: 0 <= k < |services| ==> NoNewline(services[k].image)
    ensures forall k :: 0 <= k < |services| ==>
              forall m :: 0 <= m < 4 ==> NoNewline(ServiceBlock(services[k], id)[m])
    ensures forall k :: 0 <= k < |journeys| ==>
              forall m :: 0 <= m < 4 ==> NoNewline(JourneyBlock(journeys[k], id)[m])
    ensures NoNewline(Indent + NetworkName(id) + ":")
  {
    var net := NetworkName(id);
    NoNewlineInWords(Decimal(id));
    NoNewlineConcat("khh_", Decimal(id));
    NoNewlineConcat(Indent3 + "- ", net);
    NoNewlineConcat(Indent, net);
    NoNewlineConcat(Indent + net, ":");
    forall k | 0 <= k < |services|
      ensures forall m :: 0 <= m < 4 ==> NoNewline(ServiceBlock(services[k], id)[m])
    {
      var name := SanitizeName(services[k].name);
      NoNewlineInWords(name);
      NoNewlineConcat(Indent, name);
      NoNewlineConcat(Indent + name, ":");
      NoNewlineConcat(Indent2 + "image: ", services[k].image);
    }
    forall k | 0 <= k < |journeys|
      ensures forall m :: 0 <= m < 4 ==> NoNewline(JourneyBlock(journeys[k], id)[m])
    {
      var name := SanitizeName(journeys[k].name);
      NoNewlineInWords(name);
      NoNewlineConcat(Indent + "journey__", name);
      NoNewlineConcat(Indent + "journey__" + name, ":");
      NoNewlineConcat(Indent2 + "build: ./_journeys/", name);
    }
  }

  lemma ServiceBlocksNoNewline(services: seq<Service>, id: RunId)
    requires forall k :: 0 <= k < |services| ==> NoNewline(services[k].image)
    ensures forall i :: 0 <= i < |ServiceBlocks(services, id)| ==> NoNewline(ServiceBlocks(services, id)[i])
  {
    var sb := ServiceBlocks(services, id);
    ServiceBlocksAt(services, id);
    NoNewlineInBlocks(services, [], id);
    forall i | 0 <= i < |sb| ensures NoNewline(sb[i]) {
      var k, m := i / 4, i % 4;
      assert i == 4 * k + m && k < |services|;
      assert sb[4 * k .. 4 * k + 4] == ServiceBlock(services[k], id);
      assert sb[i] == ServiceBlock(services[k], id)[m];
    }
  }

  lemma JourneyBlocksNoNewline(journeys: seq<Journey>, id: RunId)
    ensures forall i :: 0 <= i < |JourneyBlocks(journeys, id)| ==> NoNewline(JourneyBlocks(journeys, id)[i])
  {
    var jb := JourneyBlocks(journeys, id);
    JourneyBlocksAt(journeys, id);
    NoNewlineInBlocks([], journeys, id);
    forall i | 0 <= i < |jb| ensures NoNewline(jb[i]) {
      var k, m := i / 4, i % 4;
      assert i == 4 * k + m && k < |journeys|;
      assert jb[4 * k .. 4 * k + 4] == JourneyBlock(journeys[k], id);
      assert jb[i] == JourneyBlock(journeys[k], id)[m];
    }
  }

  lemma ManifestLinesNoNewline(services: seq<Service>, journeys: seq<Journey>, id: RunId)
    requires forall k :: 0 <= k < |services| ==> NoNewline(services[k].image)
    ensures forall i :: 0 <= i < |ManifestLines(services, journeys, id)| ==>
              NoNewline(ManifestLines(services, journeys, id)[i])
  {
    var all := ManifestLines(services, journeys, id);
    var sb := ServiceBlocks(services, id);
    var jb := JourneyBlocks(journeys, id);
    ServiceBlocksNoNewline(services, id);
    JourneyBlocksNoNewline(journeys, id);
    NoNewlineInBlocks([], [], id);
    forall i | 0 <= i < |all| ensures NoNewline(all[i]) {
      if 1 <= i < 1 + |sb| {
        assert all[i] == sb[i - 1];
      } else if 1 + |sb| <= i < 1 + |sb| + |jb| {
        assert all[i] == jb[i - 1 - |sb|];
      }
    }
  }

  lemma ManifestLinesBlocks(services: seq<Service>, journeys: seq<Journey>, id: RunId)
    ensures var all := ManifestLines(services, journeys, id);
            && (forall k :: 0 <= k < |services| ==>
                  all[1 + 4 * k .. 5 + 4 * k] == ServiceBlock(services[k], id))
            && (forall k :: 0 <= k < |journeys| ==>
                  all[1 + 4 * |services| + 4 * k .. 5 + 4 * |services| + 4 * k] == JourneyBlock(journeys[k], id))
  {
    var all := ManifestLines(services, journeys, id);
    var sb := ServiceBlocks(services, id);
    var jb := JourneyBlocks(journeys, id);
    ServiceBlocksAt(services, id);
    JourneyBlocksAt(journeys, id);
    forall k | 0 <= k < |services|
      ensures all[1 + 4 * k .. 5 + 4 * k] == ServiceBlock(services[k], id)
    {
      assert all[1 + 4 * k .. 5 + 4 * k] == sb[4 * k .. 4 * k + 4];
    }
    forall k | 0 <= k < |journeys|
      ensures all[1 + 4 * |services| + 4 * k .. 5 + 4 * |services| + 4 * k] == JourneyBlock(journeys[k], id)
    {
      assert all[1 + 4 * |services| + 4 * k .. 5 + 4 * |services| + 4 * k] == jb[4 * k .. 4 * k + 4];
    }
  }

  /**
   * Read back line by line, the manifest holds the `services:` key, one
   * four-line block per service in order, one four-line block per journey in
   * order (colliding sanitized names included), and a single network
   * definition at the end, which every block joins.
   */
  lemma ManifestLayout(services: seq<Service>, journeys: seq<Journey>, id: RunId)
    requires forall k :: 0 <= k < |services| ==> NoNewline(services[k].image)
    ensures var lines := SplitLines(Manifest(services, journeys, id));
            && |lines| == 3 + 4 * (|services| + |journeys|)
            && lines[0] == "services:"
            && (forall k :: 0 <= k < |services| ==>
                  lines[1 + 4 * k .. 5 + 4 * k] == ServiceBlock(services[k], id))
            && (forall k :: 0 <= k < |journeys| ==>
                  lines[1 + 4 * |services| + 4 * k .. 5 + 4 * |services| + 4 * k] == JourneyBlock(journeys[k], id))
            && lines[|lines| - 2] == "networks:"
            && lines[|lines| - 1] == Indent + NetworkName(id) + ":"
  {
    ManifestLinesNoNewline(services, journeys, id);
    SplitJoinLines(ManifestLines(services, journeys, id));
    ManifestLinesBlocks(services, journeys, id);
  }

  /** A one-step script reads back as its four lines. */
  lemma EntrypointOneStep(step: string)
    requires NoNewline(step)
    ensures SplitLines(Entrypoint([step])) == ["#!/bin/sh", "set -e # exit on error", "# step 1", step]
  {
    EntrypointLayout([step]);
    assert Decimal(1) == "1";
    assert StepComment(1) == "# step 1";
    var lines := SplitLines(Entrypoint([step]));
    assert |lines| == 4 && lines[2] == "# step 1" && lines[3] == step;
    assert lines == [lines[0], lines[1], lines[2], lines[3]];
  }

  /** A manifest of one service and one journey reads back as its eleven lines. */
  lemma ManifestOfOne(s: Service, j: Journey, id: RunId)
    requires NoNewline(s.image)
    ensures SplitLines(Manifest([s], [j], id))
            == ["services:"] + ServiceBlock(s, id) + JourneyBlock(j, id) + ["networks:", Indent + NetworkName(id) + ":"]
  {
    ManifestLayout([s], [j], id);
    var lines := SplitLines(Manifest([s], [j], id));
    assert [s][0] == s && [j][0] == j && |[s]| == 1;
    assert lines[1 + 4 * 0 .. 5 + 4 * 0] == ServiceBlock(s, id);
    assert lines[1 + 4 * 1 + 4 * 0 .. 5 + 4 * 1 + 4 * 0] == JourneyBlock(j, id);
    assert |lines| == 11;
    assert lines[..1] == ["services:"];
    assert lines[9..] == ["networks:", Indent + NetworkName(id) + ":"];
    assert lines == lines[..1] + lines[1..5] + lines[5..9] + lines[9..];
  }
}
