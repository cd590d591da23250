/** The wording of the service arguments, as permission_reconnect.py has it. */
module Services {
  import opened Options
  import opened Permissions

  const MODES := Modes("danger-full-access", "read-only", "workspace-write")

  const VALUED := {"--sandbox", "-s"}
  const ALONE := {"--network-access", "--no-network-access", "--dangerously-bypass-approvals-and-sandbox", "--yolo",
                  "--full-auto"}
  const KEYS := {"sandbox_mode", "sandbox_workspace_write.network_access", "default_permissions", "permissions"}

  function Wording(resident: bool): Dialect {
    if resident then
      Resident(Grammar(VALUED, "--sandbox=", ALONE, {}, {}, KEYS, "permissions."), "--sandbox", "--network-access",
               MODES)
    else
      Owner(Grammar(VALUED, "--sandbox=", ALONE, {"-c", "--config"}, {"--config=", "-c"}, KEYS, "permissions."),
            "-c", "sandbox_mode", "sandbox_workspace_write.network_access", MODES)
  }

  lemma OptionsAreDashed(word: string)
    requires word in VALUED + ALONE + {"-c", "--config"} + {"--config=", "-c"}
    ensures Dashed(word)
  {
  }

  lemma KeysAreBare()
    ensures forall k | k in KEYS :: Undashed(k)
    ensures Bare("sandbox_mode") && Bare("sandbox_workspace_write.network_access")
  {
  }

  lemma ModesDiffer()
    ensures var m := MODES;
      && Undashed(m.full) && Undashed(m.readOnly) && Undashed(m.workspace)
      && m.full != m.readOnly && m.full != m.workspace && m.readOnly != m.workspace
  {
    assert MODES.full[0] == 'd' && MODES.readOnly[0] == 'r' && MODES.workspace[0] == 'w';
  }

  lemma OptionsDiffer()
    ensures "--network-access" !in VALUED
    ensures "-c" !in VALUED && "-c" !in ALONE && !("--sandbox=" <= "-c")
  {
    assert "--network-access"[2] == 'n' && "--sandbox"[2] == 's' && "-c"[1] == 'c' && "-s"[1] == 's' && |"-c"| == 2;
  }

  /** The wording meets everything the rewriter relies on: what Permissions.dfy proves holds
      of the arguments the program writes. */
  lemma WordingIsSound(resident: bool)
    ensures Sound(Wording(resident))
  {
    KeysAreBare();
    ModesDiffer();
    OptionsDiffer();
    var g := Wording(resident).g;
    forall w | w in g.valued + g.alone + g.pairs + g.compact ensures Dashed(w) {
      OptionsAreDashed(w);
    }
  }
}
