TestResult.DisplayName,TestResult.Outcome,TestResult.Duration,TestResult.ResourceCount,RandomSeed
Query.SelectKeptHead (correctness),Failed,00:00:01.0170692,2055061,1
Query.SelectKeptHead (well-formedness),Passed,00:00:00.3581734,57640,1
