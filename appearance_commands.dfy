/** The theme switching commands of the command palette
    (src/lib/commands/appearance-commands.ts). */
module AppearanceCommands {
  /** The themes. */
  datatype Theme = Light | Dark | System

  /** A command: its id and the theme it switches to. */
  datatype ThemeCommand = ThemeCommand(id: string, target: Theme)

  /** The three commands, in palette order. */
  const ThemeCommands: seq<ThemeCommand> :=
    [ThemeCommand("theme.light", Light), ThemeCommand("theme.dark", Dark), ThemeCommand("theme.system", System)]

  /** `isAvailable`: offered unless the theme already is the target. */
  predicate IsAvailable(command: ThemeCommand, current: Theme) {
    current != command.target
  }

  /** The commands offered for a theme. */
  function AvailableCommands(current: Theme): (r: seq<ThemeCommand>)
    ensures forall c :: c in r <==> c in ThemeCommands && IsAvailable(c, current)
  {
    if current == Light then [ThemeCommands[1], ThemeCommands[2]]
    else if current == Dark then [ThemeCommands[0], ThemeCommands[2]]
    else [ThemeCommands[0], ThemeCommands[1]]
  }

  /** Whatever the theme, exactly two of the three commands are offered:
      the ones for the other two themes. */
  lemma TwoOfThreeAvailable(current: Theme)
    ensures |AvailableCommands(current)| == 2
    ensures forall c :: c in AvailableCommands(current) ==> c.target != current
    ensures AvailableCommands(current)[0].target != AvailableCommands(current)[1].target
    ensures {AvailableCommands(current)[0].target, AvailableCommands(current)[1].target, current} == {Light, Dark, System}
  {
  }

  /** The command context: the theme it holds. */
  class CommandContext {
    var theme: Theme

    constructor(initial: Theme)
      ensures theme == initial
    {
      theme := initial;
    }

    /** `execute`: sets the theme to the command's target, after which the
        command is no longer offered and the other two are. */
    method Execute(command: ThemeCommand)
      modifies this
      ensures theme == command.target
      ensures !IsAvailable(command, theme)
      ensures forall c :: c in ThemeCommands && c.target != command.target ==> IsAvailable(c, theme)
    {
      theme := command.target;
    }
  }
}
