TestResult.DisplayName,TestResult.Outcome,TestResult.Duration,TestResult.ResourceCount,RandomSeed
Query.SelectKeptHead (correctness),Failed,00:00:00.8084277,2055002,2
Query.SelectKeptHead (well-formedness),Passed,00:00:00.1280675,57579,2
