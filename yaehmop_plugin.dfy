/**
 * The yaehmop extension plugin: which molecule it works on, when its menu
 * action is enabled, the full input it hands to the tight-binding
 * program for a band-structure calculation, and where it looks for that
 * program.
 */
module YaehmopPlugin {
  import opened Common
  import opened YaehmopInput
  import opened YaehmopBand

  /** The parts of the application's molecule that the plugin reads. */
  class Molecule {
    var atomicNumbers: seq<AtomicNumber>
    var positions: seq<Vec3>
    var unitCell: Option<UnitCell>

    constructor(atomicNumbers: seq<AtomicNumber>, positions: seq<Vec3>, unitCell: Option<UnitCell>)
      ensures this.atomicNumbers == atomicNumbers && this.positions == positions && this.unitCell == unitCell
    {
      this.atomicNumbers := atomicNumbers;
      this.positions := positions;
      this.unitCell := unitCell;
    }
  }

  /** The kinds of change a molecule announces; one notification carries a set of them. */
  datatype Change = Atoms | Bonds | UnitCellChange | Added | Removed | Modified

  /** The settings the band dialog edits and the band calculation reads. */
  datatype Settings = Settings(numBandKPoints: nat, numDim: nat, specialKPoints: string)

  /** The platform decides the file name of the program. */
  datatype Platform = Windows | Unix

  /** What is needed to start the program: its path, its arguments and the text for its standard input. */
  datatype Invocation = Invocation(program: string, arguments: seq<string>, input: seq<Line>)

  const NotFoundMessage: string := "Error: could not find yaehmop executable!"
  const StdinStdoutFlag: string := "--use_stdin_stdout"

  function ExecutableName(platform: Platform): string
  {
    if platform == Windows then "yaehmop.exe" else "yaehmop"
  }

  function InAppDir(appDir: string, platform: Platform): string
  {
    appDir + "/" + ExecutableName(platform)
  }

  function InSiblingBin(appDir: string, platform: Platform): string
  {
    appDir + "/../bin/" + ExecutableName(platform)
  }

  /**
   * The program to run. `envValue` is the value of YAEHMOP_EXECUTABLE
   * ("" when it is unset or empty), `appDir` the application's directory
   * and `fileExists` answers whether a file is present.
   */
  function ResolveExecutable(envValue: string, appDir: string, platform: Platform,
                             fileExists: string -> bool): (program: Option<string>)
    ensures envValue != "" ==> program == Some(envValue)
    ensures program.None? <==>
              envValue == "" && !fileExists(InAppDir(appDir, platform)) && !fileExists(InSiblingBin(appDir, platform))
    ensures envValue == "" && program.Some? ==>
              fileExists(program.value)
              && (program.value == InAppDir(appDir, platform)
                  || (program.value == InSiblingBin(appDir, platform) && !fileExists(InAppDir(appDir, platform))))
  {
    if envValue != "" then Some(envValue)
    else if fileExists(InAppDir(appDir, platform)) then Some(InAppDir(appDir, platform))
    else if fileExists(InSiblingBin(appDir, platform)) then Some(InSiblingBin(appDir, platform))
    else None
  }

  /**
   * What `executeYaehmop` does before it starts a process: a failure with
   * the not-found message, and then no process, or the invocation it
   * starts.
   */
  function PrepareInvocation(input: seq<Line>, envValue: string, appDir: string, platform: Platform,
                             fileExists: string -> bool): (r: Result<Invocation>)
    ensures r.Failure? <==> ResolveExecutable(envValue, appDir, platform, fileExists).None?
    ensures r.Failure? ==> r.error == NotFoundMessage
    ensures r.Success? ==> r.value.program == ResolveExecutable(envValue, appDir, platform, fileExists).value
                           && r.value.arguments == [StdinStdoutFlag] && r.value.input == input
  {
    match ResolveExecutable(envValue, appDir, platform, fileExists)
    case None => Failure(NotFoundMessage)
    case Some(program) => Success(Invocation(program, [StdinStdoutFlag], input))
  }

  /** When a program was found and YAEHMOP_EXECUTABLE is unset, the one in the application directory is preferred. */
  lemma AppDirPreferred(appDir: string, platform: Platform, fileExists: string -> bool)
    requires fileExists(InAppDir(appDir, platform))
    ensures PrepareInvocation([], "", appDir, platform, fileExists).Success?
    ensures PrepareInvocation([], "", appDir, platform, fileExists).value.program == InAppDir(appDir, platform)
  {
  }

  /** The plugin: the molecule it watches, the enabled flag of each of its actions, its settings. */
  class Yaehmop {
    var molecule: Molecule?
    const actions: array<bool>
    var settings: Settings

    /** The actions are enabled exactly when there is a molecule and it has a unit cell. */
    predicate ActionsAllowed()
      reads this, molecule
    {
      molecule != null && molecule.unitCell.Some?
    }

    predicate ActionsEnabled(enabled: bool)
      reads this, actions
    {
      forall i :: 0 <= i < actions.Length ==> actions[i] == enabled
    }

    /** The plugin starts without a molecule, with its one action disabled, and with the stored settings. */
    constructor(settings: Settings)
      ensures molecule == null && this.settings == settings
      ensures fresh(actions) && actions.Length == 1 && ActionsEnabled(false)
    {
      molecule := null;
      this.settings := settings;
      actions := new bool[1] [false];
    }

    method UpdateActions()
      modifies actions
      ensures ActionsEnabled(ActionsAllowed())
    {
      var enabled := molecule != null && molecule.unitCell.Some?;
      for i := 0 to actions.Length
        invariant forall k :: 0 <= k < i ==> actions[k] == enabled
      {
        actions[i] := enabled;
      }
    }

    /** Setting the molecule already set changes nothing; any other molecule is taken and the actions follow it. */
    method SetMolecule(mol: Molecule?)
      modifies this, actions
      ensures molecule == mol && settings == old(settings)
      ensures old(molecule) == mol ==> actions[..] == old(actions[..])
      ensures old(molecule) != mol ==> ActionsEnabled(ActionsAllowed())
    {
      if molecule == mol {
        return;
      }
      molecule := mol;
      UpdateActions();
    }

    /** Only a notification that a unit cell was added or removed updates the actions. */
    method MoleculeChanged(changes: set<Change>)
      modifies actions
      ensures UnitCellChange in changes && (Added in changes || Removed in changes) ==> ActionsEnabled(ActionsAllowed())
      ensures !(UnitCellChange in changes && (Added in changes || Removed in changes)) ==> actions[..] == old(actions[..])
    {
      if UnitCellChange in changes {
        if Added in changes || Removed in changes {
          UpdateActions();
        }
      }
    }

    /** The state `createGeometryAndLatticeInput` needs to write both sections once it finds a unit cell. */
    predicate InputReady()
      reads this, molecule
    {
      molecule != null && molecule.unitCell.Some? ==>
        WellFormedInput(molecule.atomicNumbers, molecule.positions, molecule.unitCell.value, settings.numDim)
    }

    /** The Geometry and lattice sections as a function of the plugin's state. */
    function GeometryText(symbol: AtomicNumber -> string): (lines: seq<Line>)
      reads this, molecule
      requires InputReady()
      ensures lines == [] <==> (molecule == null || molecule.unitCell.None?)
      ensures lines != [] ==> lines[0] == [Word("Geometry")]
    {
      if molecule == null || molecule.unitCell.None? then []
      else
        var cell := molecule.unitCell.value;
        GeometryHeaderCountsRecords(molecule.atomicNumbers, molecule.positions, cell, settings.numDim, symbol);
        GeometryAndLattice(molecule.atomicNumbers, molecule.positions, cell, settings.numDim, symbol)
    }

    /** The Geometry and lattice sections: nothing at all without a molecule or without a unit cell. */
    method CreateGeometryAndLatticeInput(symbol: AtomicNumber -> string) returns (lines: seq<Line>)
      requires InputReady()
      ensures lines == GeometryText(symbol)
    {
      if molecule == null {
        return [];
      }
      match molecule.unitCell
      case None =>
        lines := [];
      case Some(cell) =>
        lines := GeometryAndLatticeLines(molecule.atomicNumbers, molecule.positions, cell, settings.numDim, symbol);
    }

    /** The whole input of a band-structure calculation: the title, the Geometry and lattice sections, the Band section. */
    function BandInput(symbol: AtomicNumber -> string): (input: seq<Line>)
      reads this, molecule
      requires InputReady()
      ensures |input| == |GeometryText(symbol)| + 5 && input[0] == [Word("Title")]
      ensures input[1..|input| - 4] == GeometryText(symbol)
      ensures input[|input| - 4..] == BandSection(settings.numBandKPoints, settings.specialKPoints)
    {
      var geometry := GeometryText(symbol);
      var band := BandSection(settings.numBandKPoints, settings.specialKPoints);
      var input := [[Word("Title")]] + geometry + band;
      assert input[1..|input| - 4] == geometry;
      assert input[|input| - 4..] == band;
      input
    }

    /**
     * The input of a band-structure calculation and the program it is
     * given to, or the not-found error when there is no program to give it to.
     */
    method CalculateBandStructure(symbol: AtomicNumber -> string, envValue: string, appDir: string,
                                  platform: Platform, fileExists: string -> bool) returns (r: Result<Invocation>)
      requires InputReady()
      ensures r == PrepareInvocation(BandInput(symbol), envValue, appDir, platform, fileExists)
    {
      var input := [[Word("Title")]];
      var geometry := CreateGeometryAndLatticeInput(symbol);
      input := input + geometry;
      input := input + BandSection(settings.numBandKPoints, settings.specialKPoints);
      r := PrepareInvocation(input, envValue, appDir, platform, fileExists);
    }
  }
}
