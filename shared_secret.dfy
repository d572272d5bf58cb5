/**
 * The pure step of `logflux_load_shared_secret`: the removal of the newline
 * that ends the line read from the secret file.
 */
module SharedSecret {

  /** Drops one trailing newline, if the line has one. */
  function StripTrailingNewline(line: string): (r: string)
    ensures line == r + "\n" || (r == line && (|line| == 0 || line[|line| - 1] != '\n'))
  {
    if |line| > 0 && line[|line| - 1] == '\n' then line[..|line| - 1] else line
  }

  /** Stripping undoes the newline that ends a line, and only one of them. */
  lemma StripNewlineRoundTrip(line: string)
    ensures StripTrailingNewline(line + "\n") == line
    ensures StripTrailingNewline(line + "\n\n") == line + "\n"
  {
    assert (line + "\n")[..|line|] == line;
    assert (line + "\n\n")[..|line| + 1] == line + "\n";
  }
}
