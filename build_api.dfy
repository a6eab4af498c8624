/**
 * The build resources that the webhook controller and the build validators
 * read: a build, a build configuration and the input they share. Only the
 * fields those two components touch are kept.
 */
module BuildApi {
  import opened Wrappers

  /** A Git repository: where the sources come from. */
  datatype GitSourceControl = GitSourceControl(uri: string, ref: string)

  /** The source-control block of a build input; `git` is nil when absent. */
  datatype SourceControl = SourceControl(git: Option<GitSourceControl>)

  /** Parameters specific to a source-to-image build. */
  datatype STIBuildInput = STIBuildInput(builderImage: string)

  /** What a build consumes. Absent pointers are `None`. */
  datatype BuildInput = BuildInput(
    source: Option<SourceControl>,
    imageTag: string,
    registry: string,
    stiInput: Option<STIBuildInput>)

  datatype Build = Build(id: string, input: BuildInput, status: string, podID: string)

  datatype BuildConfig = BuildConfig(id: string, desiredInput: BuildInput, secret: string)

  /** Go's composite literal `&api.Build{Input: in}`: every other field at its zero value. */
  function BuildFromInput(input: BuildInput): (b: Build)
    ensures b.input == input && b.id == "" && b.podID == ""
  {
    Build("", input, "", "")
  }
}
