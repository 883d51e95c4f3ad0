/** The agent's view of a job's output files. */
module JobFiles {
  import opened Seqs
  import opened Utf8

  datatype Stream = Stdout | Stderr

  /** The fields of a job the live session reads; paths are "" while Slurm does not know them. */
  datatype JobData = JobData(stdoutExpanded: string, stderrExpanded: string, running: bool)

  /** File contents by resolved path, and the paths inside the managed log roots. */
  datatype FileSystem = FileSystem(files: map<string, Bytes>, managed: set<string>)

  /** Output path of a stream; Slurm merges stderr into stdout when no error path is given. */
  function LogPath(job: JobData, stream: Stream): string {
    match stream
    case Stdout => job.stdoutExpanded
    case Stderr => if job.stderrExpanded != "" then job.stderrExpanded else job.stdoutExpanded
  }

  /** What a path holds; a missing file and an unknown path hold nothing. */
  function Content(fs: FileSystem, path: string): Bytes {
    if path != "" && path in fs.files then fs.files[path] else []
  }
}
